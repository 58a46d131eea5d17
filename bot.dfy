/**
 * The bot's process-wide state and the handlers that change it: the poll
 * job, which fetches new elements, filters them for the user's country,
 * sends one message per element and then moves the shared cursor, unless an
 * exception cuts it short; and the country choice, which stores a
 * preference and schedules the poll job.
 *
 * Each handler is given twice: as a pure transition on `State`, about which
 * the lemmas below are proved, and as a method of `Bot` that updates the
 * fields in place and is proved to perform that transition. The pure
 * transitions take the message formatter as a parameter `format`; the
 * methods use `FormatEntryMessage`.
 */
module Bot {
  import opened Wrappers
  import opened Entries
  import opened Formatter

  type UserId = int

  /** Timestamps are opaque text here; their two formats are not modelled. */
  type Timestamp = string

  /** The status code of a successful fetch. */
  const StatusOk: int := 200

  /** Seconds between two runs of a poll job. */
  const PollInterval: nat := 600

  /** The query the poll sends, up to the cursor value. */
  const ElementsQuery: string := "https://api.btcmap.org/v2/elements?updated_since="

  /** The rest of the query, after the cursor value. */
  const LimitParameter: string := "&limit=5000"

  /** The countries a user may choose, in the order the keyboard lists them. */
  const Countries: seq<string> :=
    ["Portugal", "Spain", "Czech Republic", "Great Britain", "Ireland", "Netherlands", "Germany"]

  /** The value stored for a user: `{'country': text}`. */
  datatype Preference = Preference(country: string)

  /** A repeating poll job for one user, as handed to the job queue. */
  datatype Job = Job(userId: UserId, interval: nat, first: nat)

  /** What `response.json()` gives: the decoded entries, or nothing when the body is not JSON and the call raises. */
  datatype Body = Decoded(entries: seq<Entry>) | Undecodable

  /** What `requests.get` gave: an answer with its status code and body, or nothing when the call raised. */
  datatype Response = Answered(status: int, body: Body) | Unanswered

  /**
   * How `send_entries_to_telegram` ended: every call returned, or an
   * exception escaped after `delivered` messages had gone out (raised by
   * `Updater`, by a `send_message` call, or by `updater.stop`).
   */
  datatype Delivery = AllSent | RaisedAfter(delivered: nat)

  /**
   * The effects of the handlers that others can observe, in order: the
   * request sent to the elements endpoint, a message sent to a chat, the line logged for a failed fetch, and each write of the
   * shared cursor (which every user's poll job reads).
   */
  datatype Event =
    | Requested(url: string)
    | Sent(chatId: UserId, text: string)
    | FetchFailed(status: int)
    | CursorAdvanced(time: Timestamp)

  /** The module-level state: the cursor, the preferences, the scheduled jobs, and the effects so far. */
  datatype State = State(
    lastPolledTime: Timestamp,
    userPreferences: map<UserId, Preference>,
    jobs: seq<Job>,
    events: seq<Event>)

  /** `user_preferences.get(user_id, {}).get('country')`. */
  function UserCountry(prefs: map<UserId, Preference>, userId: UserId): (country: Option<string>)
    ensures country.Some? <==> userId in prefs
    ensures country.Some? ==> country.value == prefs[userId].country
  {
    if userId in prefs then Some(prefs[userId].country) else None
  }

  /**
   * The list comprehension that keeps the entries for which the country
   * predicate holds, in their order. The predicate is a parameter because
   * its definition is not part of the program.
   */
  function FilterEntries(entries: seq<Entry>, inSelectedCountry: (Entry, Option<string>) -> bool,
                         country: Option<string>): (kept: seq<Entry>)
    ensures |kept| <= |entries|
    ensures forall i :: 0 <= i < |kept| ==> inSelectedCountry(kept[i], country)
  {
    if entries == [] then []
    else
      var rest := FilterEntries(entries[1..], inSelectedCountry, country);
      if inSelectedCountry(entries[0], country) then [entries[0]] + rest else rest
  }

  /**
   * The filter keeps exactly the entries that satisfy the predicate, in their
   * original order: `idx` lists their positions, strictly increasing, and a
   * position is listed iff its entry satisfies the predicate.
   */
  lemma {:induction false} FilterEntriesIndices(entries: seq<Entry>, inSelectedCountry: (Entry, Option<string>) -> bool,
                                                country: Option<string>)
    returns (idx: seq<nat>)
    ensures |idx| == |FilterEntries(entries, inSelectedCountry, country)|
    ensures forall i :: 0 <= i < |idx| ==>
      idx[i] < |entries| && FilterEntries(entries, inSelectedCountry, country)[i] == entries[idx[i]]
    ensures forall i, j :: 0 <= i < j < |idx| ==> idx[i] < idx[j]
    ensures forall k :: 0 <= k < |entries| ==>
      (inSelectedCountry(entries[k], country) <==> exists i :: 0 <= i < |idx| && idx[i] == k)
  {
    if entries == [] {
      idx := [];
    } else {
      var tail := entries[1..];
      var rest := FilterEntriesIndices(tail, inSelectedCountry, country);
      var keepHead := inSelectedCountry(entries[0], country);
      var h := if keepHead then 1 else 0;
      idx := ShiftIndices(rest, h);
      var kept := FilterEntries(entries, inSelectedCountry, country);
      var keptTail := FilterEntries(tail, inSelectedCountry, country);
      assert kept == (if keepHead then [entries[0]] else []) + keptTail;
      forall i | 0 <= i < |idx|
        ensures idx[i] < |entries| && kept[i] == entries[idx[i]]
      {
        if i >= h {
          assert kept[i] == keptTail[i - h] == tail[rest[i - h]];
        }
      }
      ShiftedMembers(entries, tail, inSelectedCountry, country, rest, h, idx);
    }
  }

  /** The induction step of FilterEntriesIndices for the positions that are listed. */
  lemma ShiftedMembers(entries: seq<Entry>, tail: seq<Entry>, inSelectedCountry: (Entry, Option<string>) -> bool,
                       country: Option<string>, rest: seq<nat>, h: nat, idx: seq<nat>)
    requires |entries| >= 1 && tail == entries[1..]
    requires h == if inSelectedCountry(entries[0], country) then 1 else 0
    requires forall k :: 0 <= k < |tail| ==>
      (inSelectedCountry(tail[k], country) <==> exists i :: 0 <= i < |rest| && rest[i] == k)
    requires |idx| == |rest| + h && (h == 1 ==> idx[0] == 0)
    requires forall i :: h <= i < |idx| ==> idx[i] == rest[i - h] + 1
    ensures forall k :: 0 <= k < |entries| ==>
      (inSelectedCountry(entries[k], country) <==> exists i :: 0 <= i < |idx| && idx[i] == k)
  {
    forall k | 0 <= k < |entries|
      ensures inSelectedCountry(entries[k], country) <==> exists i :: 0 <= i < |idx| && idx[i] == k
    {
      if k == 0 {
        if h == 1 {
          assert idx[0] == 0;
        }
      } else {
        assert entries[k] == tail[k - 1];
        if inSelectedCountry(entries[k], country) {
          var t :| 0 <= t < |rest| && rest[t] == k - 1;
          assert idx[t + h] == k;
        }
        if exists i :: 0 <= i < |idx| && idx[i] == k {
          var i :| 0 <= i < |idx| && idx[i] == k;
          assert i >= h;
          assert rest[i - h] == k - 1;
        }
      }
    }
  }

  /**
   * The positions of the kept tail entries, each moved one place right to
   * count the head, preceded by position 0 when the head is kept (`h == 1`).
   */
  lemma ShiftIndices(rest: seq<nat>, h: nat) returns (idx: seq<nat>)
    requires h <= 1
    requires forall i, j :: 0 <= i < j < |rest| ==> rest[i] < rest[j]
    ensures |idx| == |rest| + h
    ensures h == 1 ==> idx[0] == 0
    ensures forall i :: h <= i < |idx| ==> idx[i] == rest[i - h] + 1
    ensures forall i, j :: 0 <= i < j < |idx| ==> idx[i] < idx[j]
  {
    var shifted := seq(|rest|, i requires 0 <= i < |rest| => rest[i] + 1);
    idx := if h == 1 then [0] + shifted else shifted;
  }

  /** The messages `send_entries_to_telegram` sends for `entries`, in order: one per entry. */
  function SendEvents(userId: UserId, entries: seq<Entry>, format: Entry -> string): (sent: seq<Event>)
    ensures |sent| == |entries|
  {
    if entries == [] then []
    else SendEvents(userId, entries[..|entries| - 1], format) + [Sent(userId, format(entries[|entries| - 1]))]
  }

  /** The i-th message sent is the formatted i-th entry, addressed to the user's chat. */
  lemma {:induction false} SendEventsAt(userId: UserId, entries: seq<Entry>, i: nat, format: Entry -> string)
    requires i < |entries|
    ensures SendEvents(userId, entries, format)[i] == Sent(userId, format(entries[i]))
  {
    var n := |entries| - 1;
    var init := SendEvents(userId, entries[..n], format);
    assert SendEvents(userId, entries, format) == init + [Sent(userId, format(entries[n]))];
    if i < n {
      SendEventsAt(userId, entries[..n], i, format);
      assert entries[..n][i] == entries[i];
    }
  }

  /** Sending one more entry appends its message to the log of the earlier ones. */
  lemma SendEventsSnoc(userId: UserId, entries: seq<Entry>, i: nat, format: Entry -> string,
                       prior: seq<Event>, before: seq<Event>, message: string)
    requires i < |entries|
    requires before == prior + SendEvents(userId, entries[..i], format)
    requires message == format(entries[i])
    ensures before + [Sent(userId, message)] == prior + SendEvents(userId, entries[..i + 1], format)
  {
    assert entries[..i + 1][..i] == entries[..i];
  }

  /** The number of messages that went out when `entries` was handed to `send_entries_to_telegram`. */
  function DeliveredCount(entries: seq<Entry>, delivery: Delivery): (count: nat)
    ensures count <= |entries|
    ensures delivery.AllSent? ==> count == |entries|
    ensures delivery.RaisedAfter? && delivery.delivered <= |entries| ==> count == delivery.delivered
  {
    match delivery
    case AllSent => |entries|
    case RaisedAfter(k) => if k < |entries| then k else |entries|
  }

  /** The URL `poll_api` fetches: every element updated since `cursor`, at most 5000 of them. */
  function FetchUrl(cursor: Timestamp): (url: string)
  {
    ElementsQuery + cursor + LimitParameter
  }

  /** The request is the query, then the cursor text unchanged, then the limit parameter. */
  lemma FetchUrlShape(cursor: Timestamp)
    ensures var url := FetchUrl(cursor);
      && |url| == |ElementsQuery| + |cursor| + |LimitParameter|
      && ElementsQuery <= url
      && url[|ElementsQuery|..|ElementsQuery| + |cursor|] == cursor
      && url[|ElementsQuery| + |cursor|..] == LimitParameter
  {
  }

  /** Different cursors give different requests, so the request shows the cursor it was built from. */
  lemma FetchUrlInjective(a: Timestamp, b: Timestamp)
    requires FetchUrl(a) == FetchUrl(b)
    ensures a == b
  {
    FetchUrlShape(a);
    FetchUrlShape(b);
  }

  /**
   * A poll runs to its end, and so writes the cursor, only when the fetch
   * answered 200 with a JSON body and every send call returned.
   */
  predicate Completes(response: Response, delivery: Delivery)
  {
    response.Answered? && response.status == StatusOk && response.body.Decoded? && delivery.AllSent?
  }

  /**
   * One run of `poll_api` for `job`, given what the fetch returned, how the
   * sends ended, and the clock's reading afterwards. Every poll first
   * requests the elements updated since the cursor as it stands, and keeps
   * the preferences, the jobs and the earlier effects.
   */
  function PollStep(s: State, job: Job, response: Response, delivery: Delivery, now: Timestamp,
                    inSelectedCountry: (Entry, Option<string>) -> bool, format: Entry -> string): (r: State)
    ensures r.userPreferences == s.userPreferences && r.jobs == s.jobs
    ensures s.events <= r.events && |r.events| > |s.events|
    ensures r.events[|s.events|] == Requested(FetchUrl(s.lastPolledTime))
  {
    var request := Requested(FetchUrl(s.lastPolledTime));
    if response.Unanswered? then
      s.(events := s.events + [request])
    else if response.status != StatusOk then
      s.(events := s.events + [request, FetchFailed(response.status)])
    else if response.body.Undecodable? then
      s.(events := s.events + [request])
    else
      var filtered := FilterEntries(response.body.entries, inSelectedCountry, UserCountry(s.userPreferences, job.userId));
      var sent := SendEvents(job.userId, filtered[..DeliveredCount(filtered, delivery)], format);
      if delivery.AllSent? then
        s.(events := s.events + [request] + sent + [CursorAdvanced(now)], lastPolledTime := now)
      else
        s.(events := s.events + [request] + sent)
  }

  /**
   * The cursor rule of one poll: the cursor is set to `now` exactly when the
   * poll completes. A fetch that raises, a status other than 200 (which is
   * logged) or a body that is not JSON adds nothing after the request.
   */
  lemma PollStepRule(s: State, job: Job, response: Response, delivery: Delivery, now: Timestamp,
                     inSelectedCountry: (Entry, Option<string>) -> bool, format: Entry -> string)
    ensures var r := PollStep(s, job, response, delivery, now, inSelectedCountry, format);
      r.lastPolledTime == if Completes(response, delivery) then now else s.lastPolledTime
    ensures var r := PollStep(s, job, response, delivery, now, inSelectedCountry, format);
      response.Unanswered? ==> r.events[|s.events| + 1..] == []
    ensures var r := PollStep(s, job, response, delivery, now, inSelectedCountry, format);
      response.Answered? && response.status != StatusOk ==> r.events[|s.events| + 1..] == [FetchFailed(response.status)]
    ensures var r := PollStep(s, job, response, delivery, now, inSelectedCountry, format);
      response.Answered? && response.status == StatusOk && response.body.Undecodable? ==>
        r.events[|s.events| + 1..] == []
  {
  }

  /**
   * The sends of a poll whose fetch answered 200 with a JSON body: one
   * message per kept entry, in order, until a send raises. When none raises
   * the cursor write comes last, after every message; when one raises, only
   * the messages before it went out and the cursor is not written.
   */
  lemma PollStepSends(s: State, job: Job, entries: seq<Entry>, delivery: Delivery, now: Timestamp,
                      inSelectedCountry: (Entry, Option<string>) -> bool, format: Entry -> string)
    ensures var r := PollStep(s, job, Answered(StatusOk, Decoded(entries)), delivery, now, inSelectedCountry, format);
      var kept := FilterEntries(entries, inSelectedCountry, UserCountry(s.userPreferences, job.userId));
      var added := r.events[|s.events| + 1..];
      && (delivery.AllSent? ==> added == SendEvents(job.userId, kept, format) + [CursorAdvanced(now)])
      && (delivery.RaisedAfter? ==>
            && added == SendEvents(job.userId, kept[..DeliveredCount(kept, delivery)], format)
            && DeliveredCount(kept, delivery) <= delivery.delivered)
  {
    var r := PollStep(s, job, Answered(StatusOk, Decoded(entries)), delivery, now, inSelectedCountry, format);
    var request := Requested(FetchUrl(s.lastPolledTime));
    var kept := FilterEntries(entries, inSelectedCountry, UserCountry(s.userPreferences, job.userId));
    var sent := SendEvents(job.userId, kept[..DeliveredCount(kept, delivery)], format);
    var added := r.events[|s.events| + 1..];
    if delivery.AllSent? {
      assert kept[..|kept|] == kept;
      assert r.events == s.events + [request] + sent + [CursorAdvanced(now)];
      assert added == sent + [CursorAdvanced(now)];
    } else {
      assert r.events == s.events + [request] + sent;
      assert added == sent;
    }
  }

  /**
   * A poll that an exception cut short leaves the cursor behind, so the next
   * poll for the same user, given the same answer, sends the same request
   * however it ends. It sends again every message the cut-short poll had
   * already delivered exactly when it gets at least as far through the kept
   * entries, as it does when it runs to its end.
   */
  lemma AbortedPollRepeats(s: State, job: Job, entries: seq<Entry>, k: nat, now: Timestamp, next: Timestamp, d2: Delivery,
                           inSelectedCountry: (Entry, Option<string>) -> bool, format: Entry -> string, r1: State, r2: State)
    requires r1 == PollStep(s, job, Answered(StatusOk, Decoded(entries)), RaisedAfter(k), now, inSelectedCountry, format)
    requires r2 == PollStep(r1, job, Answered(StatusOk, Decoded(entries)), d2, next, inSelectedCountry, format)
    ensures r2.events[|r1.events|] == r1.events[|s.events|]
    ensures var kept := FilterEntries(entries, inSelectedCountry, UserCountry(s.userPreferences, job.userId));
      r1.events[|s.events|..] <= r2.events[|r1.events|..] <==> DeliveredCount(kept, RaisedAfter(k)) <= DeliveredCount(kept, d2)
  {
    var kept := FilterEntries(entries, inSelectedCountry, UserCountry(s.userPreferences, job.userId));
    var n1 := DeliveredCount(kept, RaisedAfter(k));
    var n2 := DeliveredCount(kept, d2);
    var rest := if d2.AllSent? then [CursorAdvanced(next)] else [];
    assert r1.lastPolledTime == s.lastPolledTime by {
      PollStepRule(s, job, Answered(StatusOk, Decoded(entries)), RaisedAfter(k), now, inSelectedCountry, format);
    }
    assert r1.events[|s.events| + 1..] == SendEvents(job.userId, kept[..n1], format) by {
      PollStepSends(s, job, entries, RaisedAfter(k), now, inSelectedCountry, format);
    }
    assert r2.events[|r1.events| + 1..] == SendEvents(job.userId, kept[..n2], format) + rest by {
      PollStepSends(r1, job, entries, d2, next, inSelectedCountry, format);
      if d2.AllSent? {
        assert kept[..n2] == kept;
      }
    }
    if n1 <= n2 {
      assert SendEvents(job.userId, kept[..n1], format) <= SendEvents(job.userId, kept[..n2], format) by {
        SendEventsPrefix(job.userId, kept[..n2], n1, format);
        assert kept[..n2][..n1] == kept[..n1];
      }
      RetryPrefix(r1.events, r2.events, |s.events|, |r1.events|,
                  SendEvents(job.userId, kept[..n1], format), SendEvents(job.userId, kept[..n2], format), rest);
    } else {
      assert |r2.events[|r1.events|..]| == 1 + n2;
      assert |r1.events[|s.events|..]| == 1 + n1;
    }
  }

  /** Sequence step of AbortedPollRepeats: the same first effect, then a prefix of what follows it. */
  lemma RetryPrefix(e1: seq<Event>, e2: seq<Event>, m1: nat, m2: nat, x: seq<Event>, y: seq<Event>, rest: seq<Event>)
    requires m1 < |e1| && m2 < |e2| && e1[m1] == e2[m2]
    requires e1[m1 + 1..] == x && e2[m2 + 1..] == y + rest && x <= y
    ensures e1[m1..] <= e2[m2..]
  {
    assert e1[m1..] == [e1[m1]] + x;
    assert e2[m2..] == [e2[m2]] + y + rest;
  }

  /** The messages for a prefix of the entries are a prefix of the messages for all of them. */
  lemma SendEventsPrefix(userId: UserId, entries: seq<Entry>, n: nat, format: Entry -> string)
    requires n <= |entries|
    ensures SendEvents(userId, entries[..n], format) <= SendEvents(userId, entries, format)
  {
    var a := SendEvents(userId, entries[..n], format);
    var b := SendEvents(userId, entries, format);
    forall i | 0 <= i < n ensures a[i] == b[i] {
      SendEventsAt(userId, entries[..n], i, format);
      SendEventsAt(userId, entries, i, format);
    }
  }

  /** One run of a poll job: which job ran, what its fetch returned, how its sends ended, and the clock afterwards. */
  datatype Tick = Tick(job: Job, response: Response, delivery: Delivery, now: Timestamp)

  /** The state after the poll jobs run one after another; preferences and jobs are untouched and earlier effects are kept. */
  function RunTicks(s: State, ticks: seq<Tick>, inSelectedCountry: (Entry, Option<string>) -> bool, format: Entry -> string): (r: State)
    ensures r.userPreferences == s.userPreferences && r.jobs == s.jobs && s.events <= r.events
  {
    if ticks == [] then s
    else
      var last := ticks[|ticks| - 1];
      PollStep(RunTicks(s, ticks[..|ticks| - 1], inSelectedCountry, format), last.job, last.response, last.delivery, last.now, inSelectedCountry, format)
  }

  /**
   * Across any run of polls the cursor is the clock reading of the last
   * poll that completed, or where it started if none did.
   */
  lemma {:induction false} RunTicksCursor(s: State, ticks: seq<Tick>, inSelectedCountry: (Entry, Option<string>) -> bool, format: Entry -> string)
    ensures (forall j :: 0 <= j < |ticks| ==> !Completes(ticks[j].response, ticks[j].delivery)) ==>
      RunTicks(s, ticks, inSelectedCountry, format).lastPolledTime == s.lastPolledTime
    ensures forall j ::
      (0 <= j < |ticks| && Completes(ticks[j].response, ticks[j].delivery)
       && (forall k :: j < k < |ticks| ==> !Completes(ticks[k].response, ticks[k].delivery))) ==>
      RunTicks(s, ticks, inSelectedCountry, format).lastPolledTime == ticks[j].now
  {
    if ticks != [] {
      var n := |ticks| - 1;
      var init := ticks[..n];
      var last := ticks[n];
      var mid := RunTicks(s, init, inSelectedCountry, format);
      var r := RunTicks(s, ticks, inSelectedCountry, format);
      RunTicksCursor(s, init, inSelectedCountry, format);
      assert r == PollStep(mid, last.job, last.response, last.delivery, last.now, inSelectedCountry, format);
      PollStepRule(mid, last.job, last.response, last.delivery, last.now, inSelectedCountry, format);
      forall j | 0 <= j < |ticks| && Completes(ticks[j].response, ticks[j].delivery)
          && (forall k :: j < k < |ticks| ==> !Completes(ticks[k].response, ticks[k].delivery))
        ensures r.lastPolledTime == ticks[j].now
      {
        if j < n {
          assert !Completes(ticks[n].response, ticks[n].delivery);
          assert init[j] == ticks[j];
          assert forall k :: j < k < |init| ==> !Completes(init[k].response, init[k].delivery) by {
            forall k | j < k < |init| ensures !Completes(init[k].response, init[k].delivery) {
              assert init[k] == ticks[k];
            }
          }
        }
      }
      if forall j :: 0 <= j < |ticks| ==> !Completes(ticks[j].response, ticks[j].delivery) {
        assert !Completes(last.response, last.delivery);
        forall j | 0 <= j < |init| ensures !Completes(init[j].response, init[j].delivery) {
          assert init[j] == ticks[j];
        }
      }
    }
  }

  /**
   * `country_choice`: a text that is one of the listed countries becomes the
   * user's preference; then the confirmation reply is sent, and only if that
   * call returns is a repeating poll job scheduled for the user, first run
   * immediately. `replied` says whether the reply returned (false: it raised,
   * leaving the preference written and no job). Any other text changes
   * nothing, whether or not its reply raises.
   */
  function ChooseCountry(s: State, userId: UserId, text: string, replied: bool): (r: State)
    ensures r.lastPolledTime == s.lastPolledTime && r.events == s.events
    ensures text !in Countries ==> r == s
  {
    if text in Countries then
      s.(userPreferences := s.userPreferences[userId := Preference(text)],
         jobs := if replied then s.jobs + [Job(userId, PollInterval, 0)] else s.jobs)
    else
      s
  }

  /**
   * The preference is written iff the text is a listed country, and then only
   * this user's entry changes; a job is appended iff the text is listed and
   * the reply returned. When the reply returns, the state changes iff the
   * text is listed. The cursor and the effects are never touched.
   */
  lemma ChooseCountryRule(s: State, userId: UserId, text: string, replied: bool)
    ensures var r := ChooseCountry(s, userId, text, replied);
      replied ==> (r != s <==> text in Countries)
    ensures var r := ChooseCountry(s, userId, text, replied);
      text in Countries ==>
        && UserCountry(r.userPreferences, userId) == Some(text)
        && r.userPreferences.Keys == s.userPreferences.Keys + {userId}
        && (forall u :: u in s.userPreferences && u != userId ==> r.userPreferences[u] == s.userPreferences[u])
    ensures var r := ChooseCountry(s, userId, text, replied);
      r.jobs == if text in Countries && replied then s.jobs + [Job(userId, PollInterval, 0)] else s.jobs
  {
    var r := ChooseCountry(s, userId, text, replied);
    if replied && text in Countries {
      assert |r.jobs| == |s.jobs| + 1;
    }
  }

  /** The number of jobs scheduled for `userId`. */
  function JobCount(jobs: seq<Job>, userId: UserId): (count: nat)
  {
    if jobs == [] then 0
    else JobCount(jobs[..|jobs| - 1], userId) + (if jobs[|jobs| - 1].userId == userId then 1 else 0)
  }

  /**
   * Choosing a valid country again keeps only the latest preference but
   * schedules a further poll job for the same user for every reply that
   * returned: the handler does not look for a job that is already running.
   */
  lemma ChooseCountryTwice(s: State, userId: UserId, first: string, second: string, replied1: bool, replied2: bool)
    requires first in Countries && second in Countries
    ensures var r := ChooseCountry(ChooseCountry(s, userId, first, replied1), userId, second, replied2);
      && r.userPreferences == ChooseCountry(s, userId, second, replied2).userPreferences
      && JobCount(r.jobs, userId) == JobCount(s.jobs, userId) + (if replied1 then 1 else 0) + (if replied2 then 1 else 0)
  {
    var m := ChooseCountry(s, userId, first, replied1);
    var r := ChooseCountry(m, userId, second, replied2);
    var job := Job(userId, PollInterval, 0);
    if replied1 {
      assert m.jobs == s.jobs + [job] && (s.jobs + [job])[..|s.jobs|] == s.jobs;
    }
    if replied2 {
      assert r.jobs == m.jobs + [job] && (m.jobs + [job])[..|m.jobs|] == m.jobs;
    }
  }

  /**
   * The countries a user can choose are exactly the countries the dial code
   * table produces, so a stored preference can be compared with a classified
   * entry; `Unknown` is not among them.
   */
  lemma CountriesMatchTable()
    ensures forall c :: c in Countries <==> c in CountryCodes.Values
    ensures Unknown !in Countries
  {
    assert CountryCodes["+351"] == "Portugal";
    assert CountryCodes["+34"] == "Spain";
    assert CountryCodes["+420"] == "Czech Republic";
    assert CountryCodes["+44"] == "Great Britain";
    assert CountryCodes["+353"] == "Ireland";
    assert CountryCodes["+31"] == "Netherlands";
    assert CountryCodes["+49"] == "Germany";
  }

  /** The module-level globals of the bot, updated in place by its handlers. */
  class Bot {
    var lastPolledTime: Timestamp
    var userPreferences: map<UserId, Preference>
    var jobs: seq<Job>
    var events: seq<Event>

    /** The current values of the globals. */
    function Snapshot(): (snapshot: State)
      reads this
    {
      State(lastPolledTime, userPreferences, jobs, events)
    }

    /** Start-up: no preferences, no jobs, and the cursor at the clock reading taken at start. */
    constructor (startTime: Timestamp)
      ensures Snapshot() == State(startTime, map[], [], [])
    {
      lastPolledTime := startTime;
      userPreferences := map[];
      jobs := [];
      events := [];
    }

    /**
     * `send_entries_to_telegram`: one message per entry, in list order, until
     * a call raises. Returns whether every call returned; only `events`
     * changes, by the messages that went out.
     */
    method SendEntriesToTelegram(userId: UserId, entries: seq<Entry>, delivery: Delivery) returns (completed: bool)
      modifies this`events
      ensures completed <==> delivery.AllSent?
      ensures events == old(events) + SendEvents(userId, entries[..DeliveredCount(entries, delivery)], FormatEntryMessage)
    {
      var i := 0;
      while i < |entries| && delivery != RaisedAfter(i)
        invariant i <= |entries|
        invariant delivery.RaisedAfter? ==> i <= delivery.delivered
        invariant events == old(events) + SendEvents(userId, entries[..i], FormatEntryMessage)
      {
        var message := FormatEntryMessage(entries[i]);
        SendEventsSnoc(userId, entries, i, FormatEntryMessage, old(events), events, message);
        events := events + [Sent(userId, message)];
        i := i + 1;
      }
      assert i == DeliveredCount(entries, delivery);
      completed := delivery.AllSent?;
    }

    /** `poll_api` for `job`: the fetch result, how the sends end and the clock reading are inputs. */
    method PollApi(job: Job, response: Response, delivery: Delivery, now: Timestamp,
                   inSelectedCountry: (Entry, Option<string>) -> bool)
      modifies this
      ensures Snapshot() == PollStep(old(Snapshot()), job, response, delivery, now, inSelectedCountry, FormatEntryMessage)
      ensures lastPolledTime == if Completes(response, delivery) then now else old(lastPolledTime)
      ensures userPreferences == old(userPreferences) && jobs == old(jobs)
    {
      events := events + [Requested(FetchUrl(lastPolledTime))];
      if response.Unanswered? {
        return;
      }
      if response.status == StatusOk {
        if response.body.Decoded? {
          var entries := response.body.entries;
          var userCountry := UserCountry(userPreferences, job.userId);
          var filtered := FilterEntries(entries, inSelectedCountry, userCountry);
          var completed := SendEntriesToTelegram(job.userId, filtered, delivery);
          if completed {
            events := events + [CursorAdvanced(now)];
            lastPolledTime := now;
          }
        }
      } else {
        events := events + [FetchFailed(response.status)];
      }
    }

    /**
     * `country_choice`: store the preference for a listed country, then
     * schedule the poll job unless the confirmation reply raised.
     */
    method CountryChoice(userId: UserId, text: string, replied: bool)
      modifies this
      ensures Snapshot() == ChooseCountry(old(Snapshot()), userId, text, replied)
      ensures text in Countries ==> userPreferences == old(userPreferences)[userId := Preference(text)]
      ensures jobs == if text in Countries && replied then old(jobs) + [Job(userId, PollInterval, 0)] else old(jobs)
      ensures text !in Countries ==> userPreferences == old(userPreferences)
      ensures lastPolledTime == old(lastPolledTime) && events == old(events)
    {
      if text in Countries {
        userPreferences := userPreferences[userId := Preference(text)];
        if replied {
          jobs := jobs + [Job(userId, PollInterval, 0)];
        }
      }
    }
  }
}
