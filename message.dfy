/**
 * The layout of a notification: the text is seven `Label: value` lines
 * joined by newlines, so it can be split back into its lines and read back
 * into the payload it was made from, as long as no value has a newline of its own.
 */
module Message {
  import opened Wrappers
  import opened Entries
  import opened Formatter

  /** The inverse of splitting: lines joined with one newline between each two. */
  function Join(lines: seq<string>): (text: string)
    requires |lines| >= 1
  {
    if |lines| == 1 then lines[0] else lines[0] + "\n" + Join(lines[1..])
  }

  /** `s.split('\n')`: the lines of `s`, which join back into `s` and have no newline in them. */
  function SplitLines(s: string): (lines: seq<string>)
    ensures |lines| >= 1
    ensures Join(lines) == s
    ensures forall i :: 0 <= i < |lines| ==> '\n' !in lines[i]
  {
    if s == [] then [""]
    else
      var rest := SplitLines(s[1..]);
      if s[0] == '\n' then
        [""] + rest
      else
        assert s == [s[0]] + s[1..];
        [[s[0]] + rest[0]] + rest[1..]
  }

  /** The number of newline characters in `s`. */
  function NewlineCount(s: string): (count: nat)
  {
    if s == [] then 0 else (if s[0] == '\n' then 1 else 0) + NewlineCount(s[1..])
  }

  lemma {:induction false} NewlineCountAppend(a: string, b: string)
    ensures NewlineCount(a + b) == NewlineCount(a) + NewlineCount(b)
  {
    if a != [] {
      assert (a + b)[0] == a[0];
      assert (a + b)[1..] == a[1..] + b;
      NewlineCountAppend(a[1..], b);
    } else {
      assert a + b == b;
    }
  }

  /** A string splits into one more line than it has newlines. */
  lemma {:induction false} SplitLinesCount(s: string)
    ensures |SplitLines(s)| == NewlineCount(s) + 1
  {
    if s != [] {
      SplitLinesCount(s[1..]);
    }
  }

  /** Splitting at a newline splits the two sides independently. */
  lemma {:induction false} SplitLinesAppend(a: string, b: string)
    ensures SplitLines(a + "\n" + b) == SplitLines(a) + SplitLines(b)
  {
    if a == [] {
      assert (a + "\n" + b)[1..] == b;
    } else {
      var s := a + "\n" + b;
      assert s[0] == a[0];
      assert s[1..] == a[1..] + "\n" + b;
      SplitLinesAppend(a[1..], b);
      if a[0] != '\n' {
        JoinFirst(a[0], SplitLines(a[1..]), SplitLines(b));
      }
    }
  }

  /** Proof step for SplitLinesAppend: a character put in front of the first line stays in front after appending more lines. */
  lemma JoinFirst(c: char, left: seq<string>, right: seq<string>)
    requires |left| >= 1
    ensures [[c] + (left + right)[0]] + (left + right)[1..] == ([[c] + left[0]] + left[1..]) + right
  {
    assert (left + right)[0] == left[0];
    assert (left + right)[1..] == left[1..] + right;
  }

  /** A string without newlines is a single line. */
  lemma SplitLinesSingle(s: string)
    requires '\n' !in s
    ensures SplitLines(s) == [s]
  {
    var lines := SplitLines(s);
    if |lines| > 1 {
      NewlineCountZero(s);
      SplitLinesCount(s);
    }
  }

  lemma {:induction false} NewlineCountZero(s: string)
    requires '\n' !in s
    ensures NewlineCount(s) == 0
  {
    if s != [] {
      assert s[0] in s;
      assert forall c :: c in s[1..] ==> c in s;
      NewlineCountZero(s[1..]);
    }
  }

  /** None of the values of a payload has a newline in it. */
  predicate NoNewlines(p: Payload)
  {
    && '\n' !in p.name && '\n' !in p.city && '\n' !in p.country
    && '\n' !in p.currency && '\n' !in p.lightning
    && '\n' !in p.androidIcon && '\n' !in p.service
  }

  /** The total number of newlines inside the values of a payload. */
  function FieldNewlines(p: Payload): (count: nat)
  {
    NewlineCount(p.name) + NewlineCount(p.city) + NewlineCount(p.country)
    + NewlineCount(p.currency) + NewlineCount(p.lightning)
    + NewlineCount(p.androidIcon) + NewlineCount(p.service)
  }

  /** The seven labelled lines of a notification, in their fixed order. */
  function Lines(p: Payload): (lines: seq<string>)
  {
    [ "Name: " + p.name, "City: " + p.city, "Country: " + p.country,
      "Currency: " + p.currency, "Lightning: " + p.lightning,
      "Android Icon: " + p.androidIcon, "Service: " + p.service ]
  }

  /** The f-string regrouped as the labelled lines with a newline between each two. */
  lemma RenderShape(p: Payload)
    ensures Render(p) ==
      "Name: " + p.name + "\n" + ("City: " + p.city) + "\n" + ("Country: " + p.country)
      + "\n" + ("Currency: " + p.currency) + "\n" + ("Lightning: " + p.lightning)
      + "\n" + ("Android Icon: " + p.androidIcon) + "\n" + ("Service: " + p.service)
  {
    Separators();
    var a0 := "Name: " + p.name;
    var a1 := a0 + "\nCity: " + p.city;
    var a2 := a1 + "\nCountry: " + p.country;
    var a3 := a2 + "\nCurrency: " + p.currency;
    var a4 := a3 + "\nLightning: " + p.lightning;
    var a5 := a4 + "\nAndroid Icon: " + p.androidIcon;
    var a6 := a5 + "\nService: " + p.service;
    var b1 := a0 + "\n" + ("City: " + p.city);
    var b2 := b1 + "\n" + ("Country: " + p.country);
    var b3 := b2 + "\n" + ("Currency: " + p.currency);
    var b4 := b3 + "\n" + ("Lightning: " + p.lightning);
    var b5 := b4 + "\n" + ("Android Icon: " + p.androidIcon);
    var b6 := b5 + "\n" + ("Service: " + p.service);
    Regroup(a0, "City: ", p.city);
    assert a1 == b1;
    Regroup(a1, "Country: ", p.country);
    assert a2 == b2;
    Regroup(a2, "Currency: ", p.currency);
    assert a3 == b3;
    Regroup(a3, "Lightning: ", p.lightning);
    assert a4 == b4;
    Regroup(a4, "Android Icon: ", p.androidIcon);
    assert a5 == b5;
    Regroup(a5, "Service: ", p.service);
    assert a6 == b6;
  }

  /** Proof step for RenderShape: moves one label from its separator onto the value that follows it. */
  lemma Regroup(x: string, prefix: string, v: string)
    ensures x + ("\n" + prefix) + v == x + "\n" + (prefix + v)
  {
  }

  /** Proof step for RenderShape: each separator of the f-string is a newline followed by the next label. */
  lemma Separators()
    ensures "\nCity: " == "\n" + "City: "
    ensures "\nCountry: " == "\n" + "Country: "
    ensures "\nCurrency: " == "\n" + "Currency: "
    ensures "\nLightning: " == "\n" + "Lightning: "
    ensures "\nAndroid Icon: " == "\n" + "Android Icon: "
    ensures "\nService: " == "\n" + "Service: "
  {
  }

  /** With newline-free values, the text splits into exactly the seven labelled lines. */
  lemma RenderLines(p: Payload)
    requires NoNewlines(p)
    ensures SplitLines(Render(p)) == Lines(p)
  {
    var ls := Lines(p);
    var s0 := ls[0];
    var s1 := s0 + "\n" + ls[1];
    var s2 := s1 + "\n" + ls[2];
    var s3 := s2 + "\n" + ls[3];
    var s4 := s3 + "\n" + ls[4];
    var s5 := s4 + "\n" + ls[5];
    var s6 := s5 + "\n" + ls[6];
    RenderShape(p);
    SplitLinesSingle(s0);
    assert SplitLines(s0) == ls[..1];
    SplitLinesSnoc(s0, ls[..1], ls[1]);
    assert ls[..1] + [ls[1]] == ls[..2];
    SplitLinesSnoc(s1, ls[..2], ls[2]);
    assert ls[..2] + [ls[2]] == ls[..3];
    SplitLinesSnoc(s2, ls[..3], ls[3]);
    assert ls[..3] + [ls[3]] == ls[..4];
    SplitLinesSnoc(s3, ls[..4], ls[4]);
    assert ls[..4] + [ls[4]] == ls[..5];
    SplitLinesSnoc(s4, ls[..5], ls[5]);
    assert ls[..5] + [ls[5]] == ls[..6];
    SplitLinesSnoc(s5, ls[..6], ls[6]);
    assert ls[..6] + [ls[6]] == ls[..7];
    assert ls[..7] == ls;
  }

  /** Adding one newline-free line after a newline adds exactly that line. */
  lemma SplitLinesSnoc(s: string, lines: seq<string>, line: string)
    requires SplitLines(s) == lines
    requires '\n' !in line
    ensures SplitLines(s + "\n" + line) == lines + [line]
  {
    SplitLinesAppend(s, line);
    SplitLinesSingle(line);
  }

  /** The text has six newlines of its own plus whatever newlines the values carry. */
  lemma RenderNewlines(p: Payload)
    ensures NewlineCount(Render(p)) == 6 + FieldNewlines(p)
  {
    RenderShape(p);
    var ls := Lines(p);
    var s0 := ls[0];
    var s1 := s0 + "\n" + ls[1];
    var s2 := s1 + "\n" + ls[2];
    var s3 := s2 + "\n" + ls[3];
    var s4 := s3 + "\n" + ls[4];
    var s5 := s4 + "\n" + ls[5];
    var s6 := s5 + "\n" + ls[6];
    LabelledCount("Name: ", p.name);
    LabelledCount("City: ", p.city);
    LabelledCount("Country: ", p.country);
    LabelledCount("Currency: ", p.currency);
    LabelledCount("Lightning: ", p.lightning);
    LabelledCount("Android Icon: ", p.androidIcon);
    LabelledCount("Service: ", p.service);
    SeparatedCount(s0, ls[1]);
    SeparatedCount(s1, ls[2]);
    SeparatedCount(s2, ls[3]);
    SeparatedCount(s3, ls[4]);
    SeparatedCount(s4, ls[5]);
    SeparatedCount(s5, ls[6]);
  }

  lemma LabelledCount(prefix: string, v: string)
    requires '\n' !in prefix
    ensures NewlineCount(prefix + v) == NewlineCount(v)
  {
    NewlineCountZero(prefix);
    NewlineCountAppend(prefix, v);
  }

  lemma SeparatedCount(x: string, line: string)
    ensures NewlineCount(x + "\n" + line) == NewlineCount(x) + 1 + NewlineCount(line)
  {
    NewlineCountAppend(x, "\n");
    NewlineCountAppend(x + "\n", line);
  }

  /** `line` with `prefix` removed from its front, when it starts with it. */
  function Unlabel(prefix: string, line: string): (value: Option<string>)
    ensures value.Some? <==> prefix <= line
    ensures value.Some? ==> line == prefix + value.value
  {
    if prefix <= line then Some(line[|prefix|..]) else None
  }

  /** Reads a notification text back into its payload; `None` when it is not seven correctly labelled lines. */
  function ParseMessage(msg: string): (parsed: Option<Payload>)
  {
    var ls := SplitLines(msg);
    if |ls| != 7 then None
    else
      var name := Unlabel("Name: ", ls[0]);
      var city := Unlabel("City: ", ls[1]);
      var country := Unlabel("Country: ", ls[2]);
      var currency := Unlabel("Currency: ", ls[3]);
      var lightning := Unlabel("Lightning: ", ls[4]);
      var icon := Unlabel("Android Icon: ", ls[5]);
      var service := Unlabel("Service: ", ls[6]);
      if name.None? || city.None? || country.None? || currency.None?
         || lightning.None? || icon.None? || service.None?
      then None
      else Some(Payload(name.value, city.value, country.value, currency.value,
                        lightning.value, icon.value, service.value))
  }

  /** Reading back a rendered payload with newline-free values recovers it. */
  lemma ParseRender(p: Payload)
    requires NoNewlines(p)
    ensures ParseMessage(Render(p)) == Some(p)
  {
    RenderLines(p);
    var ls := Lines(p);
    assert Unlabel("Name: ", ls[0]) == Some(p.name);
    assert Unlabel("City: ", ls[1]) == Some(p.city);
    assert Unlabel("Country: ", ls[2]) == Some(p.country);
    assert Unlabel("Currency: ", ls[3]) == Some(p.currency);
    assert Unlabel("Lightning: ", ls[4]) == Some(p.lightning);
    assert Unlabel("Android Icon: ", ls[5]) == Some(p.androidIcon);
    assert Unlabel("Service: ", ls[6]) == Some(p.service);
  }

  /** Whatever text reads back as a payload is exactly that payload rendered, and its values are newline-free. */
  lemma RenderParse(msg: string, p: Payload)
    requires ParseMessage(msg) == Some(p)
    ensures NoNewlines(p)
    ensures Render(p) == msg
  {
    var ls := SplitLines(msg);
    assert ls == Lines(p);
    assert NoNewlines(p) by {
      forall i | 0 <= i < 7 ensures '\n' !in ls[i] { }
    }
    RenderLines(p);
  }

  /**
   * The message of any entry whose shown values have no newlines is exactly
   * seven labelled lines, with six newlines, that read back to those values.
   */
  lemma FormatLayout(e: Entry)
    requires NoNewlines(Extract(e))
    ensures SplitLines(FormatEntryMessage(e)) == Lines(Extract(e))
    ensures NewlineCount(FormatEntryMessage(e)) == 6
    ensures ParseMessage(FormatEntryMessage(e)) == Some(Extract(e))
  {
    var p := Extract(e);
    RenderLines(p);
    SplitLinesCount(Render(p));
    ParseRender(p);
  }
}
