/**
 * Sending: the single send (`/send-message`) and the broadcast engine
 * (`/api/broadcast`). A broadcast validates the request, then walks the
 * recipient list in order: it reads each item, skips one without digits,
 * renders the template (name placeholder, then spintax), hands the message
 * to the sender and, only when that succeeds, appends a log record and the
 * recipient's follow-ups. A failed send is caught and the walk goes on.
 *
 * The sender, the media fetch, the fallback-name pick, the spintax choices
 * and the clock are oracles: the `Draw` for item `i` says what they yield.
 */
module Campaign {
  import opened Wrappers
  import opened Text
  import opened Phone
  import opened Spintax
  import opened FollowUps

  // ---------------------------------------------------------------------
  // Recipients
  // ---------------------------------------------------------------------

  /** One element of `numbers`: a string, an object with `phone`/`name`, `null`, or another scalar. */
  datatype Item = Str(s: string) | Obj(phone: Option<string>, name: Option<string>) | Null | Scalar

  /** The raw digits and the explicit name an item yields. */
  datatype Recipient = Recipient(rawPhone: string, name: string)

  /** JavaScript truthiness of an optional string. */
  predicate Truthy(o: Option<string>) { o.Some? && o.value != "" }

  /** What an item yields; None when reading it throws (`null.phone`). */
  function ParseItem(item: Item): (r: Option<Recipient>)
    ensures r.None? <==> item.Null?
    ensures r.Some? ==> AllDigits(r.value.rawPhone)
  {
    match item
    case Str(s) =>
      if ':' in s then
        var parts := Split(s, ':');
        Some(Recipient(Digits(parts[0]), Trim(parts[1])))
      else Some(Recipient(Digits(s), ""))
    case Obj(phone, name) =>
      if Truthy(phone) then
        Some(Recipient(Digits(phone.value), if Truthy(name) then Trim(name.value) else ""))
      else Some(Recipient("", ""))
    case Null => None
    case Scalar => Some(Recipient("", ""))
  }

  /**
   * "num:rest" gives the digits of the part before the first colon and, as
   * the name, the trimmed text between the first and any second colon.
   */
  lemma ParseNumberAndName(num: string, rest: string)
    requires ':' !in num
    ensures ParseItem(Str(num + ":" + rest)) == Some(Recipient(Digits(num), Trim(Split(rest, ':')[0])))
  {
    var s := num + ":" + rest;
    assert s == num + [':'] + rest;
    assert s[|num|] == ':';
    SplitAtFirst(num, rest, ':');
  }

  /** An object item gives the digits of its phone, or nothing without a phone. */
  lemma ParseObject(phone: Option<string>, name: Option<string>)
    ensures Truthy(phone) ==> ParseItem(Obj(phone, name)).value.rawPhone == Digits(phone.value)
    ensures Truthy(phone) && Truthy(name) ==> ParseItem(Obj(phone, name)).value.name == Trim(name.value)
    ensures Truthy(phone) && !Truthy(name) ==> ParseItem(Obj(phone, name)).value.name == ""
    ensures !Truthy(phone) ==> ParseItem(Obj(phone, name)) == Some(Recipient("", ""))
  {
  }

  /** A bare string gives its digits and no name. */
  lemma ParseBareNumber(s: string)
    requires ':' !in s
    ensures ParseItem(Str(s)) == Some(Recipient(Digits(s), ""))
  {
  }

  /** The names used when an item gives none. */
  const FallbackNames: seq<string> := ["Customer", "Bapak/Ibu/Kak"]

  function FinalName(name: string, pick: nat): (r: string)
    ensures name != "" ==> r == name
    ensures name == "" ==> r in FallbackNames
  {
    if name != "" then name else FallbackNames[pick % |FallbackNames|]
  }

  // ---------------------------------------------------------------------
  // Rendering
  // ---------------------------------------------------------------------

  predicate PlaceholderAt(s: string)
  {
    |s| >= 3 && s[0] == '{' && (s[1] == 'N' || s[1] == 'n') && s[2] == '}'
  }

  /** `message.replace(/\{N\}/gi, name)`. */
  function ReplaceName(s: string, name: string): string
    decreases |s|
  {
    if s == [] then []
    else if PlaceholderAt(s) then name + ReplaceName(s[3..], name)
    else [s[0]] + ReplaceName(s[1..], name)
  }

  /** Text without an opening brace holds no placeholder and is unchanged. */
  lemma {:induction false} ReplaceNameNoBrace(s: string, name: string)
    requires '{' !in s
    ensures ReplaceName(s, name) == s
  {
    if s != [] {
      assert s[0] != '{';
      ReplaceNameNoBrace(s[1..], name);
      assert [s[0]] + s[1..] == s;
    }
  }

  /** The placeholder matches in either case. */
  lemma ReplaceNameEitherCase(rest: string, name: string)
    ensures ReplaceName("{N}" + rest, name) == name + ReplaceName(rest, name)
    ensures ReplaceName("{n}" + rest, name) == name + ReplaceName(rest, name)
  {
    assert ("{N}" + rest)[3..] == rest;
    assert ("{n}" + rest)[3..] == rest;
  }

  /** The text one recipient is sent: name substituted first, then spintax. */
  function Render(message: string, name: string, choices: seq<nat>): string
  {
    Expand(ReplaceName(message, name), choices)
  }

  // ---------------------------------------------------------------------
  // One broadcast
  // ---------------------------------------------------------------------

  datatype BroadcastRequest = BroadcastRequest(
    numbers: Option<seq<Item>>,     // None: `numbers` is not an array
    message: string,
    mediaUrl: string,
    sendMethod: string,
    delayEnable: bool,
    delayValue: nat,
    delayUnit: string,
    enableFollowup: bool,
    followUps: Option<seq<Rule>>,   // None: `follow_ups` is not an array
    stopKeywords: string)

  /** `Array.isArray(numbers) && numbers.length && message`. */
  predicate ValidRequest(req: BroadcastRequest)
  {
    req.numbers.Some? && |req.numbers.value| > 0 && req.message != ""
  }

  /**
   * The pause between recipients. An unknown unit makes the product NaN in
   * the source, and NaN is not greater than 0: no pause, as when pacing is off.
   */
  function DelayMs(req: BroadcastRequest): (ms: nat)
    ensures ms > 0 <==> Paced(req)
  {
    if req.delayEnable && Scale(req.delayValue, req.delayUnit).Some? then Scale(req.delayValue, req.delayUnit).value else 0
  }

  /** A pause follows every attempted send. */
  predicate Paced(req: BroadcastRequest)
  {
    req.delayEnable && req.delayValue > 0 && UnitMs(req.delayUnit).Some?
  }

  predicate FollowUpsEnabled(req: BroadcastRequest)
  {
    req.enableFollowup && req.followUps.Some?
  }

  /** What the oracles yield for one item. */
  datatype Draw = Draw(namePick: nat, spin: seq<nat>, delivered: bool, sentAt: int)

  function DrawAt(draws: seq<Draw>, i: nat): Draw
  {
    if i < |draws| then draws[i] else Draw(0, [], false, 0)
  }

  /** How the message goes out: text only, media with the text as caption, or text then media. */
  datatype Dispatch =
    | TextOnly(to: string, text: string)
    | Captioned(to: string, mediaUrl: string, caption: string)
    | TextThenMedia(to: string, text: string, mediaUrl: string)

  datatype Attempt = Attempt(dispatch: Dispatch, delivered: bool)

  datatype LogEntry = LogEntry(phone: string, name: string, message: string, mediaUrl: string, sentAt: int)

  /** How a broadcast message goes out (`DispatchForms` gives the cases). */
  function DispatchFor(req: BroadcastRequest, to: string, text: string): Dispatch
  {
    if req.mediaUrl == "" then TextOnly(to, text)
    else if req.sendMethod == "caption" then Captioned(to, req.mediaUrl, text)
    else TextThenMedia(to, text, req.mediaUrl)
  }

  /**
   * Media goes out only with a media URL: as a caption exactly when the
   * method is "caption", otherwise text first; the text reaches the
   * recipient in every form.
   */
  lemma DispatchForms(req: BroadcastRequest, to: string, text: string)
    ensures DispatchFor(req, to, text).to == to
    ensures DispatchFor(req, to, text).TextOnly? <==> req.mediaUrl == ""
    ensures DispatchFor(req, to, text).Captioned? <==> req.mediaUrl != "" && req.sendMethod == "caption"
    ensures DispatchFor(req, to, text).Captioned? ==> DispatchFor(req, to, text).caption == text
    ensures !DispatchFor(req, to, text).Captioned? ==> DispatchFor(req, to, text).text == text
    ensures !DispatchFor(req, to, text).TextOnly? ==> DispatchFor(req, to, text).mediaUrl == req.mediaUrl
  {
  }

  /** The log record a successful send to `r` appends. */
  function LogRecord(req: BroadcastRequest, r: Recipient, d: Draw): LogEntry
  {
    var name := FinalName(r.name, d.namePick);
    LogEntry(r.rawPhone, name, Render(req.message, name, d.spin), req.mediaUrl, d.sentAt)
  }

  /** What one turn of the loop does with an item. */
  datatype Outcome =
    | Crash                                                          // reading the item throws
    | Skip                                                           // no digits: nothing is sent
    | Tried(attempt: Attempt, log: LogEntry, added: seq<FollowUp>)   // a send was attempted

  function OutcomeOf(req: BroadcastRequest, now: int, item: Item, d: Draw): (o: Outcome)
    ensures o.Crash? <==> item.Null?
    ensures o.Tried? ==> o.attempt.delivered == d.delivered
  {
    match ParseItem(item)
    case None => Crash
    case Some(r) =>
      if r.rawPhone == "" then Skip
      else
        var to := ChatId(r.rawPhone);
        var log := LogRecord(req, r, d);
        Tried(Attempt(DispatchFor(req, to, log.message), d.delivered), log,
              if d.delivered && FollowUpsEnabled(req)
              then Scheduled(to, req.followUps.value, ParseStops(req.stopKeywords), now) else [])
  }

  /** The outcome for an item that parses to a recipient with digits. */
  lemma OutcomeTried(req: BroadcastRequest, now: int, item: Item, d: Draw, r: Recipient)
    requires ParseItem(item) == Some(r) && r.rawPhone != ""
    ensures var to, log := ChatId(r.rawPhone), LogRecord(req, r, d);
            OutcomeOf(req, now, item, d)
              == Tried(Attempt(DispatchFor(req, to, log.message), d.delivered), log,
                       if d.delivered && FollowUpsEnabled(req)
                       then Scheduled(to, req.followUps.value, ParseStops(req.stopKeywords), now) else [])
  {
  }

  /** The outcome for an item that parses to a recipient without digits. */
  lemma OutcomeSkip(req: BroadcastRequest, now: int, item: Item, d: Draw, r: Recipient)
    requires ParseItem(item) == Some(r) && r.rawPhone == ""
    ensures OutcomeOf(req, now, item, d) == Skip
  {
  }

  /** The log record an item contributes: only a recipient with digits whose send succeeded. */
  function LogFor(req: BroadcastRequest, item: Item, d: Draw): (l: Option<LogEntry>)
    ensures l.Some? ==> l.value.phone != "" && AllDigits(l.value.phone) && d.delivered
  {
    match ParseItem(item)
    case Some(r) => if r.rawPhone != "" && d.delivered then Some(LogRecord(req, r, d)) else None
    case None => None
  }

  /** The state a broadcast builds up: appended records, follow-ups, attempts, pauses. */
  datatype Progress = Progress(
    logs: seq<LogEntry>, followUps: seq<FollowUp>, attempts: seq<Attempt>, pauses: nat, crashed: bool)

  /** One turn of the loop over `numbers`: the outcome applied to the progress so far. */
  function Step(req: BroadcastRequest, p: Progress, o: Outcome): Progress
  {
    match o
    case Crash => p.(crashed := true)
    case Skip => p
    case Tried(a, log, added) =>
      Progress(if a.delivered then p.logs + [log] else p.logs, p.followUps + added, p.attempts + [a],
               p.pauses + (if Paced(req) then 1 else 0), p.crashed)
  }

  /** The first `k` turns; a crash ends the loop. */
  function Run(req: BroadcastRequest, now: int, items: seq<Item>, draws: seq<Draw>, k: nat): Progress
    requires k <= |items|
  {
    if k == 0 then Progress([], [], [], 0, false)
    else
      var p := Run(req, now, items, draws, k - 1);
      if p.crashed then p else Step(req, p, OutcomeOf(req, now, items[k - 1], DrawAt(draws, k - 1)))
  }

  /** One more turn of `Run`. */
  lemma RunNext(req: BroadcastRequest, now: int, items: seq<Item>, draws: seq<Draw>, i: nat)
    requires i < |items| && !Run(req, now, items, draws, i).crashed
    ensures Run(req, now, items, draws, i + 1)
         == Step(req, Run(req, now, items, draws, i), OutcomeOf(req, now, items[i], DrawAt(draws, i)))
  {
  }

  function CountDelivered(attempts: seq<Attempt>): nat
  {
    if attempts == [] then 0
    else CountDelivered(attempts[..|attempts| - 1]) + if attempts[|attempts| - 1].delivered then 1 else 0
  }

  /** Only a `null` item aborts the loop; failed sends and skipped items never do. */
  lemma {:induction false} RunCrashesOnlyOnNull(req: BroadcastRequest, now: int, items: seq<Item>, draws: seq<Draw>, k: nat)
    requires k <= |items|
    ensures Run(req, now, items, draws, k).crashed <==> exists j :: 0 <= j < k && items[j].Null?
  {
    if k > 0 {
      RunCrashesOnlyOnNull(req, now, items, draws, k - 1);
    }
  }

  /** After a crash nothing further happens. */
  lemma {:induction false} RunStaysCrashed(req: BroadcastRequest, now: int, items: seq<Item>, draws: seq<Draw>, k: nat, m: nat)
    requires k <= m <= |items|
    requires Run(req, now, items, draws, k).crashed
    ensures Run(req, now, items, draws, m) == Run(req, now, items, draws, k)
    decreases m - k
  {
    if k < m {
      RunStaysCrashed(req, now, items, draws, k, m - 1);
      RunAfterCrash(req, now, items, draws, m - 1);
    }
  }

  lemma RunAfterCrash(req: BroadcastRequest, now: int, items: seq<Item>, draws: seq<Draw>, i: nat)
    requires i < |items| && Run(req, now, items, draws, i).crashed
    ensures Run(req, now, items, draws, i + 1) == Run(req, now, items, draws, i)
  {
  }

  /**
   * Pacing: one pause per attempted send when a delay is set, none for a
   * skipped item, none at all without a delay.
   */
  lemma {:induction false} RunPacing(req: BroadcastRequest, now: int, items: seq<Item>, draws: seq<Draw>, k: nat)
    requires k <= |items|
    ensures Run(req, now, items, draws, k).pauses
         == if Paced(req) then |Run(req, now, items, draws, k).attempts| else 0
  {
    if k > 0 {
      RunPacing(req, now, items, draws, k - 1);
    }
  }

  /** One log record per successful send, none for a failed one. */
  lemma {:induction false} RunLogsPerDelivery(req: BroadcastRequest, now: int, items: seq<Item>, draws: seq<Draw>, k: nat)
    requires k <= |items|
    ensures |Run(req, now, items, draws, k).logs| == CountDelivered(Run(req, now, items, draws, k).attempts)
  {
    if k > 0 {
      RunLogsPerDelivery(req, now, items, draws, k - 1);
      var p := Run(req, now, items, draws, k - 1);
      var q := Run(req, now, items, draws, k);
      if !p.crashed && q.attempts != p.attempts {
        assert q.attempts[..|q.attempts| - 1] == p.attempts;
      }
    }
  }

  /** Item j's successful send produced the record l. */
  predicate LoggedBy(req: BroadcastRequest, items: seq<Item>, draws: seq<Draw>, j: nat, l: LogEntry)
    requires j < |items|
  {
    LogFor(req, items[j], DrawAt(draws, j)) == Some(l)
  }

  /**
   * Every log record comes from one item whose send succeeded: its digits,
   * its resolved name, and the text rendered for it.
   */
  lemma {:induction false} RunLogsFromItems(req: BroadcastRequest, now: int, items: seq<Item>, draws: seq<Draw>, k: nat)
    requires k <= |items|
    ensures forall l :: l in Run(req, now, items, draws, k).logs ==> exists j :: 0 <= j < k && LoggedBy(req, items, draws, j, l)
  {
    if k > 0 {
      RunLogsFromItems(req, now, items, draws, k - 1);
      var p := Run(req, now, items, draws, k - 1);
      var q := Run(req, now, items, draws, k);
      var d := DrawAt(draws, k - 1);
      if !p.crashed {
        match ParseItem(items[k - 1])
        case Some(r) =>
          if r.rawPhone != "" && d.delivered {
            assert q.logs == p.logs + [LogRecord(req, r, d)];
            forall l | l in q.logs
              ensures exists j :: 0 <= j < k && LoggedBy(req, items, draws, j, l)
            {
              if l in p.logs {
                var j :| 0 <= j < k - 1 && LoggedBy(req, items, draws, j, l);
                assert 0 <= j < k;
              } else {
                assert LoggedBy(req, items, draws, k - 1, l);
              }
            }
          } else {
            assert q.logs == p.logs;
          }
        case None =>
      }
    }
  }

  /**
   * Every follow-up a broadcast adds belongs to a recipient it logged, carries
   * the request's stop keywords, and fires a parsed delay after the one `now`.
   */
  lemma {:induction false} RunFollowUps(req: BroadcastRequest, now: int, items: seq<Item>, draws: seq<Draw>, k: nat)
    requires k <= |items|
    ensures forall e :: e in Run(req, now, items, draws, k).followUps ==>
              FollowUpsEnabled(req)
              && e.stopKeywords == ParseStops(req.stopKeywords)
              && e.time - now in Delays(req.followUps.value)
              && exists l :: l in Run(req, now, items, draws, k).logs && e.phone == ChatId(l.phone)
  {
    if k > 0 {
      RunFollowUps(req, now, items, draws, k - 1);
      var p := Run(req, now, items, draws, k - 1);
      var q := Run(req, now, items, draws, k);
      if !p.crashed && FollowUpsEnabled(req) {
        match ParseItem(items[k - 1])
        case Some(r) =>
          if r.rawPhone != "" {
            var to := ChatId(r.rawPhone);
            ScheduledShape(to, req.followUps.value, ParseStops(req.stopKeywords), now);
            forall e | e in q.followUps
              ensures exists l :: l in q.logs && e.phone == ChatId(l.phone)
            {
              if e !in p.followUps {
                assert LogRecord(req, r, DrawAt(draws, k - 1)) in q.logs;
              } else {
                var l :| l in p.logs && e.phone == ChatId(l.phone);
                assert l in q.logs;
              }
            }
          }
        case None =>
      }
    }
  }

  /** A campaign greeting every recipient with "Hi {N}", with no media, no pacing and no follow-ups. */
  function Greeting(items: seq<Item>): BroadcastRequest
  {
    BroadcastRequest(Some(items), "Hi {N}", "", "caption", false, 0, "s", false, None, "")
  }

  /** The placeholder of "Hi {N}" is replaced by the name. */
  lemma GreetingText(name: string)
    ensures ReplaceName("Hi {N}", name) == "Hi " + name
  {
    ReplaceNameEitherCase("", name);
    assert "Hi {N}"[1..] == "i {N}" && "i {N}"[1..] == " {N}" && " {N}"[1..] == "{N}";
    assert "{N}" == "{N}" + "";
  }

  lemma GreetingRecord(items: seq<Item>, num: string, name: string, d: Draw)
    requires name != "" && '{' !in name
    ensures LogRecord(Greeting(items), Recipient(num, name), d) == LogEntry(num, name, "Hi " + name, "", d.sentAt)
  {
    GreetingText(name);
    assert '{' !in "Hi " + name;
    ExpandNoOpeningBrace("Hi " + name, d.spin);
  }

  /**
   * A list holding "num:name" and an entry without digits: when the first
   * send succeeds the campaign leaves exactly one record, for `name`, reading
   * "Hi " + name; the second entry is skipped.
   */
  lemma {:induction false} GreetingExample(num: string, name: string, junk: string, now: int, draws: seq<Draw>)
    requires num != "" && AllDigits(num)
    requires name != "" && IsTrimmed(name) && ':' !in name && '{' !in name
    requires ':' !in junk && forall i :: 0 <= i < |junk| ==> !IsDigit(junk[i])
    requires |draws| >= 1 && draws[0].delivered
    ensures Run(Greeting([Str(num + ":" + name), Str(junk)]), now, [Str(num + ":" + name), Str(junk)], draws, 2).logs
         == [LogEntry(num, name, "Hi " + name, "", draws[0].sentAt)]
  {
    var items := [Str(num + ":" + name), Str(junk)];
    var req := Greeting(items);
    assert ':' !in num by {
      forall i | 0 <= i < |num| ensures num[i] != ':' { assert IsDigit(num[i]); }
    }
    var r := Recipient(num, name);
    assert ParseItem(items[0]) == Some(r) by {
      ParseNumberAndName(num, name);
      SplitNoSeparator(name, ':');
      DigitsOfDigits(num);
      TrimIdentity(name);
    }
    OutcomeTried(req, now, items[0], DrawAt(draws, 0), r);
    GreetingRecord(items, num, name, draws[0]);
    RunNext(req, now, items, draws, 0);
    assert Run(req, now, items, draws, 1).logs == [LogEntry(num, name, "Hi " + name, "", draws[0].sentAt)];
    assert ParseItem(items[1]) == Some(Recipient("", "")) by {
      DigitsOfNonDigits(junk);
      ParseBareNumber(junk);
    }
    OutcomeSkip(req, now, items[1], DrawAt(draws, 1), Recipient("", ""));
    RunNext(req, now, items, draws, 1);
  }

  /** The campaign ["6281111111111:Alice", "invalid!!"] records one message, "Hi Alice". */
  lemma AliceExample(now: int, draws: seq<Draw>)
    requires |draws| >= 1 && draws[0].delivered
    ensures Run(Greeting([Str("6281111111111:Alice"), Str("invalid!!")]), now,
                [Str("6281111111111:Alice"), Str("invalid!!")], draws, 2).logs
         == [LogEntry("6281111111111", "Alice", "Hi Alice", "", draws[0].sentAt)]
  {
    var num, name := "6281111111111", "Alice";
    assert "6281111111111:Alice" == num + ":" + name;
    assert "Hi Alice" == "Hi " + name;
    GreetingExample(num, name, "invalid!!", now, draws);
  }

  // ---------------------------------------------------------------------
  // The stores and the handlers
  // ---------------------------------------------------------------------

  /** The in-memory broadcast log (`broadcastLogs`). */
  class BroadcastLog {
    var records: seq<LogEntry>

    constructor (loaded: seq<LogEntry>)
      ensures records == loaded
    {
      records := loaded;
    }

    method Append(entry: LogEntry)
      modifies this
      ensures records == old(records) + [entry]
    {
      records := records + [entry];
    }
  }

  datatype BroadcastResult = Rejected | Aborted | Broadcasted

  /**
   * The body of the loop for one item: read it (a `null` item throws), skip
   * it when it has no digits, otherwise make one send attempt and, when that
   * succeeds, append the log record and the recipient's follow-ups.
   */
  method Visit(req: BroadcastRequest, now: int, item: Item, d: Draw, stops: seq<string>,
               log: BroadcastLog, queue: FollowUpQueue)
    returns (crash: bool, attempt: Option<Attempt>)
    requires stops == ParseStops(req.stopKeywords)
    modifies log, queue
    ensures var o := OutcomeOf(req, now, item, d);
            && crash == o.Crash?
            && attempt == (if o.Tried? then Some(o.attempt) else None)
            && log.records == old(log.records) + (if o.Tried? && o.attempt.delivered then [o.log] else [])
            && queue.entries == old(queue.entries) + (if o.Tried? then o.added else [])
  {
    var parsed := ParseItem(item);
    if parsed.None? {
      return true, None;
    }
    var r := parsed.value;
    if r.rawPhone == "" {
      OutcomeSkip(req, now, item, d, r);
      return false, None;
    }
    OutcomeTried(req, now, item, d, r);
    var to := ChatId(r.rawPhone);
    var entry := LogRecord(req, r, d);
    attempt := Some(Attempt(DispatchFor(req, to, entry.message), d.delivered));
    crash := false;
    if d.delivered {
      log.Append(entry);
      if FollowUpsEnabled(req) {
        queue.Enqueue(to, req.followUps.value, stops, now);
      }
    }
  }

  /**
   * `/api/broadcast`. An invalid request is rejected before anything is sent
   * or changed. Otherwise the log and the queue receive exactly what `Run`
   * describes; a crash (a `null` item) answers with an internal error and
   * keeps what was appended before it.
   */
  method Broadcast(req: BroadcastRequest, now: int, draws: seq<Draw>, log: BroadcastLog, queue: FollowUpQueue)
    returns (res: BroadcastResult, attempts: seq<Attempt>, pauses: nat)
    modifies log, queue
    ensures !ValidRequest(req) ==>
              res == Rejected && attempts == [] && pauses == 0
              && log.records == old(log.records) && queue.entries == old(queue.entries)
    ensures ValidRequest(req) ==>
              var run := Run(req, now, req.numbers.value, draws, |req.numbers.value|);
              && log.records == old(log.records) + run.logs
              && queue.entries == old(queue.entries) + run.followUps
              && attempts == run.attempts && pauses == run.pauses
              && res == if run.crashed then Aborted else Broadcasted
  {
    if !ValidRequest(req) {
      return Rejected, [], 0;
    }
    var crashed;
    crashed, attempts, pauses := Deliver(req, now, req.numbers.value, draws, log, queue);
    res := if crashed then Aborted else Broadcasted;
  }

  /** The loop over `numbers`, in order, stopping at the first item that throws. */
  method Deliver(req: BroadcastRequest, now: int, items: seq<Item>, draws: seq<Draw>,
                 log: BroadcastLog, queue: FollowUpQueue)
    returns (crashed: bool, attempts: seq<Attempt>, pauses: nat)
    modifies log, queue
    ensures var run := Run(req, now, items, draws, |items|);
            && log.records == old(log.records) + run.logs
            && queue.entries == old(queue.entries) + run.followUps
            && attempts == run.attempts && pauses == run.pauses
            && crashed == run.crashed
  {
    crashed, attempts, pauses := false, [], 0;
    var stops := ParseStops(req.stopKeywords);
    var delayMs := DelayMs(req);
    ghost var logs0, queue0 := log.records, queue.entries;
    var i := 0;
    while i < |items| && !crashed
      invariant i <= |items|
      invariant Tracks(req, now, items, draws, i, crashed, log.records, queue.entries, attempts, pauses, logs0, queue0)
    {
      crashed, attempts, pauses := Turn(req, now, items, draws, i, stops, delayMs, log, queue,
                                        attempts, pauses, logs0, queue0);
      i := i + 1;
    }
    if crashed {
      RunStaysCrashed(req, now, items, draws, i, |items|);
    }
  }

  /** The stores and counters hold what the first `i` turns of `Run` appended to them. */
  ghost predicate Tracks(req: BroadcastRequest, now: int, items: seq<Item>, draws: seq<Draw>, i: nat, crashed: bool,
                         records: seq<LogEntry>, entries: seq<FollowUp>, attempts: seq<Attempt>, pauses: nat,
                         logs0: seq<LogEntry>, queue0: seq<FollowUp>)
    requires i <= |items|
  {
    var p := Run(req, now, items, draws, i);
    && p.crashed == crashed
    && records == logs0 + p.logs && entries == queue0 + p.followUps
    && attempts == p.attempts && pauses == p.pauses
  }

  /** One turn of the loop: the item at `i` takes the progress from `Run(i)` to `Run(i + 1)`. */
  method Turn(req: BroadcastRequest, now: int, items: seq<Item>, draws: seq<Draw>, i: nat,
              stops: seq<string>, delayMs: nat, log: BroadcastLog, queue: FollowUpQueue,
              attempts: seq<Attempt>, pauses: nat, ghost logs0: seq<LogEntry>, ghost queue0: seq<FollowUp>)
    returns (crash: bool, attempts': seq<Attempt>, pauses': nat)
    requires i < |items| && stops == ParseStops(req.stopKeywords) && delayMs == DelayMs(req)
    requires Tracks(req, now, items, draws, i, false, log.records, queue.entries, attempts, pauses, logs0, queue0)
    modifies log, queue
    ensures Tracks(req, now, items, draws, i + 1, crash, log.records, queue.entries, attempts', pauses', logs0, queue0)
  {
    ghost var p := Run(req, now, items, draws, i);
    var d := DrawAt(draws, i);
    ghost var o := OutcomeOf(req, now, items[i], d);
    RunNext(req, now, items, draws, i);
    var attempt;
    crash, attempt := Visit(req, now, items[i], d, stops, log, queue);
    attempts', pauses' := attempts, pauses;
    if crash {
      assert Step(req, p, o) == p.(crashed := true);
      return;
    }
    if attempt.Some? {
      attempts' := attempts' + [attempt.value];
      if delayMs > 0 {
        pauses' := pauses' + 1;
      }
    }
    if o.Tried? {
      AppendAssoc(logs0, p.logs, if o.attempt.delivered then [o.log] else []);
      AppendAssoc(queue0, p.followUps, o.added);
    } else {
      assert Step(req, p, o) == p;
    }
  }

  datatype SendRequest = SendRequest(
    phone: Option<string>,
    message: Option<string>,
    enableFollowup: bool,
    followUps: Option<seq<Rule>>,
    stopKeywords: string)

  datatype SendResult = MissingData | SendFailed | Sent

  /**
   * `/send-message`: requires a phone and a message, sends the expanded text,
   * and only after the send succeeds schedules the requested follow-ups.
   */
  method SendMessage(req: SendRequest, choices: seq<nat>, delivered: bool, now: int, queue: FollowUpQueue)
    returns (res: SendResult, sent: Option<Outgoing>)
    modifies queue
    ensures !(Truthy(req.phone) && Truthy(req.message)) ==>
              res == MissingData && sent == None && queue.entries == old(queue.entries)
    ensures Truthy(req.phone) && Truthy(req.message) ==>
              && sent == Some(Outgoing(ChatId(req.phone.value), Expand(req.message.value, choices)))
              && res == (if delivered then Sent else SendFailed)
              && queue.entries == old(queue.entries)
                 + if delivered && req.enableFollowup && req.followUps.Some?
                   then Scheduled(ChatId(req.phone.value), req.followUps.value, ParseStops(req.stopKeywords), now)
                   else []
  {
    if !(Truthy(req.phone) && Truthy(req.message)) {
      return MissingData, None;
    }
    var to := ChatId(req.phone.value);
    sent := Some(Outgoing(to, Expand(req.message.value, choices)));
    if !delivered {
      return SendFailed, sent;
    }
    if req.enableFollowup && req.followUps.Some? {
      queue.Enqueue(to, req.followUps.value, ParseStops(req.stopKeywords), now);
    }
    res := Sent;
  }
}
