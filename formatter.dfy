/**
 * The entry formatter: the dial code of the phone number, the closed table
 * that turns it into a country, the defaults for missing fields, and the
 * seven-line notification text built from them.
 */
module Formatter {
  import opened Wrappers
  import opened Entries

  /** Placeholder shown for a missing name, city, icon or service. */
  const NotAvailable: string := "N/A"

  /** Label for a dial code outside the table. */
  const Unknown: string := "Unknown"

  /** The dial code table; every other code is `Unknown`. */
  const CountryCodes: map<string, string> := map[
    "+351" := "Portugal",
    "+34" := "Spain",
    "+420" := "Czech Republic",
    "+44" := "Great Britain",
    "+353" := "Ireland",
    "+31" := "Netherlands",
    "+49" := "Germany"
  ]

  /** The symbol shown when the entry accepts on-chain bitcoin (the literal's code points, as stored). */
  const CurrencySymbol: string := "\U{f8ff}\U{fc}\U{e7}\U{e4}"

  /** The symbol shown when the entry accepts Lightning payments (the literal's code points, as stored). */
  const LightningSymbol: string := "\U{201a}\U{f6}\U{b0}\U{d4}\U{220f}\U{e8}"

  /** The values one notification shows, in display order. */
  datatype Payload = Payload(
    name: string,
    city: string,
    country: string,
    currency: string,
    lightning: string,
    androidIcon: string,
    service: string)

  /**
   * `phone.split(' ')[0]`: the text before the first space, or the whole
   * string when it has no space.
   */
  function DialCode(phone: string): (code: string)
    ensures code <= phone
    ensures ' ' !in code
    ensures |code| < |phone| ==> phone[|code|] == ' '
    ensures ' ' !in phone ==> code == phone
  {
    if phone == [] || phone[0] == ' ' then [] else [phone[0]] + DialCode(phone[1..])
  }

  /** The three properties of DialCode single out one prefix: it is the only prefix that satisfies them. */
  lemma DialCodeUnique(phone: string, p: string)
    requires p <= phone
    requires ' ' !in p
    requires |p| < |phone| ==> phone[|p|] == ' '
    ensures p == DialCode(phone)
  {
  }

  /** `country_codes.get(code, 'Unknown')`. */
  function Classify(code: string): (country: string)
    ensures country == Unknown <==> code !in CountryCodes
    ensures country != Unknown ==> country == CountryCodes[code]
  {
    if code in CountryCodes then CountryCodes[code] else Unknown
  }

  /** The table is closed: the seven codes and their countries, and `Unknown` for everything else. */
  lemma ClassifyTable(code: string)
    ensures Classify("+351") == "Portugal" && Classify("+34") == "Spain"
    ensures Classify("+420") == "Czech Republic" && Classify("+44") == "Great Britain"
    ensures Classify("+353") == "Ireland" && Classify("+31") == "Netherlands"
    ensures Classify("+49") == "Germany"
    ensures code !in {"+351", "+34", "+420", "+44", "+353", "+31", "+49"} ==> Classify(code) == Unknown
  {
  }

  /** `entry.get(key, 'no') == 'yes'`: only the exact text `yes` counts, and an absent key counts as `no`. */
  predicate IsYes(fields: map<string, string>, key: string)
    ensures IsYes(fields, key) <==> key in fields && fields[key] == "yes"
  {
    Get(fields, key, "no") == "yes"
  }

  /** The extraction step of the formatter: every value the message shows, with its default. */
  function Extract(e: Entry): (p: Payload)
    ensures "name" in e.fields ==> p.name == e.fields["name"]
    ensures "name" !in e.fields ==> p.name == NotAvailable
    ensures "addr:city" in e.fields ==> p.city == e.fields["addr:city"]
    ensures "addr:city" !in e.fields ==> p.city == NotAvailable
    ensures "phone" in e.fields ==> p.country == Classify(DialCode(e.fields["phone"]))
    ensures "phone" !in e.fields ==> p.country == Unknown
    ensures p.currency != [] <==> ("currency:XBT" in e.fields && e.fields["currency:XBT"] == "yes")
    ensures p.lightning != [] <==> ("payment:lightning" in e.fields && e.fields["payment:lightning"] == "yes")
    ensures p.currency in {[], CurrencySymbol} && p.lightning in {[], LightningSymbol}
    ensures p.androidIcon ==
      if e.tags.Some? && "icon:android" in e.tags.value then e.tags.value["icon:android"] else NotAvailable
    ensures p.service ==
      if e.tags.Some? && "service:vehicle:garage" in e.tags.value then e.tags.value["service:vehicle:garage"] else NotAvailable
  {
    var name := Get(e.fields, "name", NotAvailable);
    var city := Get(e.fields, "addr:city", NotAvailable);
    var code := DialCode(Get(e.fields, "phone", ""));
    var country := Classify(code);
    var currencyXbt := IsYes(e.fields, "currency:XBT");
    var lightning := IsYes(e.fields, "payment:lightning");
    var androidIcon := Get(TagsOf(e), "icon:android", NotAvailable);
    var service := Get(TagsOf(e), "service:vehicle:garage", NotAvailable);
    Payload(
      name, city, country,
      if currencyXbt then CurrencySymbol else "",
      if lightning then LightningSymbol else "",
      androidIcon, service)
  }

  /** A cafe in Berlin with a German number that takes on-chain bitcoin but not Lightning, and has no tags. */
  lemma ExtractExample()
    ensures Extract(Entry(map["name" := "Cafe A", "addr:city" := "Berlin", "phone" := "+49 123", "currency:XBT" := "yes"], None))
         == Payload("Cafe A", "Berlin", "Germany", CurrencySymbol, "", NotAvailable, NotAvailable)
  {
    var fields := map["name" := "Cafe A", "addr:city" := "Berlin", "phone" := "+49 123", "currency:XBT" := "yes"];
    var p := Extract(Entry(fields, None));
    DialCodeUnique("+49 123", "+49");
    assert fields["phone"] == "+49 123";
    assert p.country == Classify("+49") == "Germany";
    assert "payment:lightning" !in fields;
    assert p.lightning == "";
  }

  /** The f-string that lays a payload out as seven labelled lines; its layout is proved in module `Message`. */
  function Render(p: Payload): (msg: string)
  {
    "Name: " + p.name + "\nCity: " + p.city + "\nCountry: " + p.country
    + "\nCurrency: " + p.currency + "\nLightning: " + p.lightning
    + "\nAndroid Icon: " + p.androidIcon + "\nService: " + p.service
  }

  /** `format_entry_message`: total, it never fails on any entry. */
  function FormatEntryMessage(e: Entry): (msg: string)
  {
    Render(Extract(e))
  }
}
