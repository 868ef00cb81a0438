/**
 * The follow-up queue: messages scheduled for a recipient at an absolute
 * time, fired by a periodic tick and cancelled by a stop keyword in the
 * recipient's reply.
 */
module FollowUps {
  import opened Wrappers
  import opened Text
  import opened Phone
  import opened Spintax

  /** One pending follow-up; `message` is the raw template, expanded when it fires. */
  datatype FollowUp = FollowUp(phone: string, message: Option<string>, time: int, stopKeywords: seq<string>)

  /** One requested follow-up: a delay such as "10m" and a message. */
  datatype Rule = Rule(delay: string, message: Option<string>)

  /** A message handed to the sender. */
  datatype Outgoing = Outgoing(to: string, text: string)

  /** The body of the best-effort POST to the lead-tracking endpoint. */
  datatype LeadUpdate = LeadUpdate(phone: string, moveTo: string)

  const GroupSuffix: string := "@g.us"
  const LeadStage: string := "Follow up"

  // ---------------------------------------------------------------------
  // Delays: `^(\d+)([smhd])$`
  // ---------------------------------------------------------------------

  /** Milliseconds per unit, `{s: 1e3, m: 6e4, h: 3.6e6, d: 8.64e7}[unit]`. */
  function UnitMs(unit: string): (ms: Option<nat>)
    ensures ms.Some? ==> ms.value >= 1000
  {
    if unit == "s" then Some(1000)
    else if unit == "m" then Some(60000)
    else if unit == "h" then Some(3600000)
    else if unit == "d" then Some(86400000)
    else None
  }

  /** `count * units[unit]`, spelled out per unit so that each product has a constant factor. */
  function Scale(count: nat, unit: string): (r: Option<nat>)
    ensures r.Some? <==> UnitMs(unit).Some?
    ensures r.Some? ==> r.value >= count * 1000
  {
    if unit == "s" then Some(count * 1000)
    else if unit == "m" then Some(count * 60000)
    else if unit == "h" then Some(count * 3600000)
    else if unit == "d" then Some(count * 86400000)
    else None
  }

  /** Scaling multiplies by the unit's milliseconds, and fails exactly for an unknown unit. */
  lemma ScaleByUnit(count: nat, unit: string)
    ensures Scale(count, unit) == if UnitMs(unit).Some? then Some(count * UnitMs(unit).value) else None
  {
  }

  /** The delay in milliseconds, or None when `delay` is not digits and a unit. */
  function ParseDelay(delay: string): (r: Option<nat>)
    ensures r.Some? <==> |delay| >= 2 && AllDigits(delay[..|delay| - 1]) && UnitMs(delay[|delay| - 1..]).Some?
  {
    if |delay| >= 2 && AllDigits(delay[..|delay| - 1]) then Scale(DecimalValue(delay[..|delay| - 1]), delay[|delay| - 1..])
    else None
  }

  /** Writing a count and a unit and parsing it back gives count times unit. */
  lemma ParseDelayRoundTrip(n: nat, unit: string)
    requires UnitMs(unit).Some?
    ensures ParseDelay(Decimal(n) + unit) == Some(n * UnitMs(unit).value)
  {
    var d := Decimal(n) + unit;
    assert |unit| == 1;
    assert d[..|d| - 1] == Decimal(n) && d[|d| - 1..] == unit;
    DecimalRoundTrip(n);
    ScaleByUnit(n, unit);
  }

  lemma ParseDelayTenSeconds()
    ensures ParseDelay("10s") == Some(10000)
  {
    assert Decimal(10) == "10" by {
      assert Decimal(1) == "1";
    }
    assert "10s" == Decimal(10) + "s";
    ParseDelayRoundTrip(10, "s");
  }

  /** A delay without a unit, or with anything but digits before it, is ignored. */
  lemma ParseDelayRejects(delay: string)
    requires |delay| < 2 || !AllDigits(delay[..|delay| - 1]) || UnitMs(delay[|delay| - 1..]).None?
    ensures ParseDelay(delay).None?
  {
  }

  // ---------------------------------------------------------------------
  // Stop keywords: `stop_keywords.split(',').map(s => s.trim().toLowerCase())`
  // ---------------------------------------------------------------------

  function ParseStops(stops: string): (ks: seq<string>)
    ensures |ks| == |Split(stops, ',')|
    ensures forall i :: 0 <= i < |ks| ==> ',' !in ks[i] && IsLower(ks[i]) && IsTrimmed(ks[i])
  {
    var parts := Split(stops, ',');
    var ks := seq(|parts|, i requires 0 <= i < |parts| => Lower(Trim(parts[i])));
    assert forall i :: 0 <= i < |ks| ==> ',' !in ks[i] && IsLower(ks[i]) && IsTrimmed(ks[i]) by {
      forall i | 0 <= i < |ks|
        ensures ',' !in ks[i] && IsLower(ks[i]) && IsTrimmed(ks[i])
      {
        StopWordClean(parts[i]);
      }
    }
    ks
  }

  lemma StopWordClean(part: string)
    requires ',' !in part
    ensures ',' !in Lower(Trim(part)) && IsLower(Lower(Trim(part))) && IsTrimmed(Lower(Trim(part)))
  {
    var t := Trim(part);
    TrimKeepsOut(part, ',');
    LowerIsLower(t);
    LowerKeepsTrimmed(t);
    var l := Lower(t);
    forall k | 0 <= k < |l| ensures l[k] != ',' {
      assert l[k] == LowerChar(t[k]) && t[k] != ',';
    }
  }

  /** Trimming only removes characters. */
  lemma TrimKeepsOut(s: string, c: char)
    requires c !in s
    ensures c !in Trim(s)
  {
    var t := Trim(s);
    var u := TrimStart(s);
    forall k | 0 <= k < |t| ensures t[k] != c {
      assert t[k] == u[k] && u[k] == s[|s| - |u| + k];
    }
  }

  /** The default, no stop keywords, still yields one keyword: the empty one. */
  lemma ParseStopsDefault()
    ensures ParseStops("") == [""]
  {
  }

  // ---------------------------------------------------------------------
  // Scheduling
  // ---------------------------------------------------------------------

  /** The entry one rule adds, if its delay parses. */
  function ScheduledBy(to: string, rule: Rule, stops: seq<string>, now: int): seq<FollowUp>
  {
    match ParseDelay(rule.delay)
    case Some(ms) => [FollowUp(to, rule.message, now + ms, stops)]
    case None => []
  }

  /** The entries a list of rules adds, in rule order, all timed from one `now`. */
  function Scheduled(to: string, rules: seq<Rule>, stops: seq<string>, now: int): (r: seq<FollowUp>)
    ensures |r| <= |rules|
    decreases |rules|
  {
    if rules == [] then []
    else Scheduled(to, rules[..|rules| - 1], stops, now) + ScheduledBy(to, rules[|rules| - 1], stops, now)
  }

  /** The delays, in milliseconds, of the rules whose delay parses. */
  function Delays(rules: seq<Rule>): set<nat>
  {
    set r | r in rules && ParseDelay(r.delay).Some? :: ParseDelay(r.delay).value
  }

  /**
   * Every scheduled entry is addressed to `to`, carries `stops`, and fires a
   * parsed delay after the single `now`; no rule adds more than one entry.
   */
  lemma {:induction false} ScheduledShape(to: string, rules: seq<Rule>, stops: seq<string>, now: int)
    ensures |Scheduled(to, rules, stops, now)| <= |rules|
    ensures forall e :: e in Scheduled(to, rules, stops, now) ==>
              e.phone == to && e.stopKeywords == stops && e.time - now in Delays(rules)
    decreases |rules|
  {
    if rules != [] {
      var init := rules[..|rules| - 1];
      var last := rules[|rules| - 1];
      ScheduledShape(to, init, stops, now);
      var before, added := Scheduled(to, init, stops, now), ScheduledBy(to, last, stops, now);
      assert Scheduled(to, rules, stops, now) == before + added;
      forall e: FollowUp | e in before + added
        ensures e.phone == to && e.stopKeywords == stops && e.time - now in Delays(rules)
      {
        if e in before {
          var r :| r in init && ParseDelay(r.delay) == Some(e.time - now);
          assert r in rules;
        } else {
          assert ParseDelay(last.delay) == Some(e.time - now);
          assert last in rules;
        }
      }
    }
  }

  /** Scheduling a concatenation of rule lists schedules each in turn. */
  lemma {:induction false} ScheduledAppend(to: string, a: seq<Rule>, b: seq<Rule>, stops: seq<string>, now: int)
    ensures Scheduled(to, a + b, stops, now) == Scheduled(to, a, stops, now) + Scheduled(to, b, stops, now)
    decreases |b|
  {
    if b == [] {
      assert a + b == a;
    } else {
      var b' := b[..|b| - 1];
      assert (a + b)[..|a + b| - 1] == a + b';
      ScheduledAppend(to, a, b', stops, now);
    }
  }

  /** Scheduling one more rule appends that rule's entry. */
  lemma ScheduledStep(to: string, rules: seq<Rule>, i: nat, stops: seq<string>, now: int)
    requires i < |rules|
    ensures Scheduled(to, rules[..i + 1], stops, now)
         == Scheduled(to, rules[..i], stops, now) + ScheduledBy(to, rules[i], stops, now)
  {
    assert rules[..i + 1][..i] == rules[..i];
  }

  // ---------------------------------------------------------------------
  // The tick
  // ---------------------------------------------------------------------

  /** The spintax choices for the entry at queue position `i`. */
  function SpinAt(spins: seq<seq<nat>>, i: nat): seq<nat>
  {
    if i < |spins| then spins[i] else []
  }

  /** The entries a tick at `now` keeps: those not yet due, in order. */
  function Pending(q: seq<FollowUp>, now: int): (r: seq<FollowUp>)
    ensures |r| <= |q|
    decreases |q|
  {
    if q == [] then []
    else Pending(q[..|q| - 1], now) + (if q[|q| - 1].time > now then [q[|q| - 1]] else [])
  }

  /** The entries a tick at `now` fires: those due, in order. */
  function Due(q: seq<FollowUp>, now: int): (r: seq<FollowUp>)
    ensures |r| + |Pending(q, now)| == |q|
    decreases |q|
  {
    if q == [] then []
    else Due(q[..|q| - 1], now) + (if q[|q| - 1].time <= now then [q[|q| - 1]] else [])
  }

  /** The messages a tick at `now` sends: each due entry, expanded at fire time. */
  function Fired(q: seq<FollowUp>, now: int, spins: seq<seq<nat>>): (r: seq<Outgoing>)
    ensures |r| == |Due(q, now)|
    decreases |q|
  {
    if q == [] then []
    else
      var e := q[|q| - 1];
      Fired(q[..|q| - 1], now, spins)
      + (if e.time <= now then [Outgoing(e.phone, ExpandOptional(e.message, SpinAt(spins, |q| - 1)))] else [])
  }

  /** After a tick the queue holds exactly the entries that are not yet due. */
  lemma {:induction false} PendingExact(q: seq<FollowUp>, now: int)
    ensures forall e :: e in Pending(q, now) <==> e in q && e.time > now
    decreases |q|
  {
    if q != [] {
      var init := q[..|q| - 1];
      PendingExact(init, now);
      InitLast(q);
    }
  }

  /** The tick keeps the original order: it filters each part of the queue alike. */
  lemma {:induction false} PendingAppend(a: seq<FollowUp>, b: seq<FollowUp>, now: int)
    ensures Pending(a + b, now) == Pending(a, now) + Pending(b, now)
    decreases |b|
  {
    if b == [] {
      assert a + b == a;
    } else {
      var b' := b[..|b| - 1];
      assert (a + b)[..|a + b| - 1] == a + b';
      PendingAppend(a, b', now);
    }
  }

  /** A tick splits the queue: every entry is either kept or fired, never both. */
  lemma {:induction false} TickPartition(q: seq<FollowUp>, now: int)
    ensures multiset(Pending(q, now)) + multiset(Due(q, now)) == multiset(q)
    decreases |q|
  {
    if q != [] {
      var init := q[..|q| - 1];
      TickPartition(init, now);
      InitLast(q);
    }
  }

  /** The sends of a tick are the due entries' recipients, in queue order. */
  lemma {:induction false} FiredAreDue(q: seq<FollowUp>, now: int, spins: seq<seq<nat>>)
    ensures |Fired(q, now, spins)| == |Due(q, now)|
    ensures forall i :: 0 <= i < |Due(q, now)| ==>
              Fired(q, now, spins)[i].to == Due(q, now)[i].phone && Due(q, now)[i].time <= now
    decreases |q|
  {
    if q != [] {
      var init := q[..|q| - 1];
      FiredAreDue(init, now, spins);
      var f, d := Fired(init, now, spins), Due(init, now);
      var e := q[|q| - 1];
      if e.time <= now {
        assert Fired(q, now, spins) == f + [Outgoing(e.phone, ExpandOptional(e.message, SpinAt(spins, |q| - 1)))];
        assert Due(q, now) == d + [e];
      } else {
        assert Fired(q, now, spins) == f;
        assert Due(q, now) == d;
      }
    }
  }

  /** A second tick at a time no later than the first finds nothing to do. */
  lemma {:induction false} PendingTwice(q: seq<FollowUp>, earlier: int, now: int)
    requires earlier <= now
    ensures Pending(Pending(q, now), earlier) == Pending(q, now)
    ensures Pending(Pending(q, earlier), now) == Pending(q, now)
    decreases |q|
  {
    if q != [] {
      var init := q[..|q| - 1];
      var e := q[|q| - 1];
      PendingTwice(init, earlier, now);
      PendingAppend(Pending(init, now), if e.time > now then [e] else [], earlier);
      PendingAppend(Pending(init, earlier), if e.time > earlier then [e] else [], now);
    }
  }

  /** An entry scheduled "10s" after T stays queued at T+9999 and fires at T+10001. */
  lemma TenSecondFollowUp(to: string, message: Option<string>, stops: seq<string>, t: int, spins: seq<seq<nat>>)
    ensures Scheduled(to, [Rule("10s", message)], stops, t) == [FollowUp(to, message, t + 10000, stops)]
    ensures Pending(Scheduled(to, [Rule("10s", message)], stops, t), t + 9999)
         == Scheduled(to, [Rule("10s", message)], stops, t)
    ensures Pending(Scheduled(to, [Rule("10s", message)], stops, t), t + 10001) == []
    ensures Fired(Scheduled(to, [Rule("10s", message)], stops, t), t + 10001, spins)
         == [Outgoing(to, ExpandOptional(message, SpinAt(spins, 0)))]
  {
    ParseDelayTenSeconds();
    var q := [FollowUp(to, message, t + 10000, stops)];
    assert [Rule("10s", message)][..0] == [];
    assert q[..0] == [];
  }

  // ---------------------------------------------------------------------
  // Whole-word matching: `new RegExp('\\b' + kw + '\\b', 'i').test(text)`
  // ---------------------------------------------------------------------

  predicate IsWordChar(c: char)
  {
    'a' <= c <= 'z' || 'A' <= c <= 'Z' || '0' <= c <= '9' || c == '_'
  }

  /** `\b` at position `p`: a word character on exactly one side. */
  predicate Boundary(t: string, p: nat)
    requires p <= |t|
  {
    (p > 0 && IsWordChar(t[p - 1])) != (p < |t| && IsWordChar(t[p]))
  }

  predicate WordAt(kw: string, t: string, i: nat)
  {
    OccursAt(t, kw, i) && Boundary(t, i) && Boundary(t, i + |kw|)
  }

  /** The regular expression's scan from position `i` on. */
  function MatchWordFrom(kw: string, t: string, i: nat): (r: bool)
    requires i <= |t|
    ensures r <==> exists j :: i <= j <= |t| && WordAt(kw, t, j)
    decreases |t| - i
  {
    WordAt(kw, t, i) || (i < |t| && MatchWordFrom(kw, t, i + 1))
  }

  function MatchesWord(kw: string, t: string): (r: bool)
    ensures r <==> exists j :: 0 <= j <= |t| && WordAt(kw, t, j)
  {
    MatchWordFrom(kw, t, 0)
  }

  /** The empty keyword matches exactly the texts that hold a word character. */
  lemma EmptyKeywordMatches(t: string)
    ensures MatchesWord("", t) <==> exists j :: 0 <= j < |t| && IsWordChar(t[j])
  {
    if j :| 0 <= j < |t| && IsWordChar(t[j]) {
      FirstWordChar(t, j);
    }
    if MatchesWord("", t) {
      var p :| 0 <= p <= |t| && WordAt("", t, p);
      if p < |t| && IsWordChar(t[p]) {
      } else {
        assert IsWordChar(t[p - 1]);
      }
    }
  }

  /** Going left from a word character reaches the start of its word. */
  lemma {:induction false} FirstWordChar(t: string, j: nat)
    requires j < |t| && IsWordChar(t[j])
    ensures WordAt("", t, j) || exists p :: 0 <= p < j && WordAt("", t, p)
  {
    if j > 0 && IsWordChar(t[j - 1]) {
      FirstWordChar(t, j - 1);
    }
  }

  // ---------------------------------------------------------------------
  // The stop handler
  // ---------------------------------------------------------------------

  /** `msg.body.trim().toLowerCase()`. */
  function InboundText(body: string): string
  {
    Lower(Trim(body))
  }

  predicate SameSender(e: FollowUp, sender: string)
  {
    Normalize(e.phone) == Normalize(sender)
  }

  /** Some stop keyword of `e` occurs in `text` as a whole word, ignoring case. */
  predicate KeywordHit(e: FollowUp, text: string)
  {
    exists kw :: kw in e.stopKeywords && MatchesWord(Lower(kw), text)
  }

  /** `followUps.filter(item => normalizePhone(item.phone) === normalizePhone(from))`. */
  function ForSender(q: seq<FollowUp>, sender: string): (r: seq<FollowUp>)
    ensures forall e :: e in r <==> e in q && SameSender(e, sender)
  {
    if q == [] then []
    else (if SameSender(q[0], sender) then [q[0]] else []) + ForSender(q[1..], sender)
  }

  /** `stopCheck.find(...)`: the first entry with a stop keyword in the text. */
  function FindStop(q: seq<FollowUp>, text: string): (r: Option<FollowUp>)
    ensures r.Some? ==> r.value in q && KeywordHit(r.value, text)
    ensures r.None? <==> forall e :: e in q ==> !KeywordHit(e, text)
  {
    if q == [] then None
    else if KeywordHit(q[0], text) then Some(q[0])
    else FindStop(q[1..], text)
  }

  /** `followUps.filter(fu => normalizePhone(fu.phone) !== normalizePhone(from))`. */
  function WithoutSender(q: seq<FollowUp>, sender: string): (r: seq<FollowUp>)
    ensures |r| <= |q|
    decreases |q|
  {
    if q == [] then []
    else WithoutSender(q[..|q| - 1], sender) + (if SameSender(q[|q| - 1], sender) then [] else [q[|q| - 1]])
  }

  /** The inbound message asks to stop: not a group, and a keyword of a pending entry for the sender hits. */
  predicate StopRequested(q: seq<FollowUp>, sender: string, body: string)
  {
    !EndsWith(sender, GroupSuffix) && FindStop(ForSender(q, sender), InboundText(body)).Some?
  }

  lemma StopRequestedExactly(q: seq<FollowUp>, sender: string, body: string)
    ensures StopRequested(q, sender, body) <==>
              !EndsWith(sender, GroupSuffix)
              && exists e :: e in q && SameSender(e, sender) && KeywordHit(e, InboundText(body))
  {
    var r := ForSender(q, sender);
    if exists e :: e in q && SameSender(e, sender) && KeywordHit(e, InboundText(body)) {
      var e :| e in q && SameSender(e, sender) && KeywordHit(e, InboundText(body));
      assert e in r;
    }
  }

  /**
   * With the default stop keywords (none given, so the one empty keyword),
   * any reply that holds a word character stops the sender's follow-ups.
   */
  lemma DefaultStopsOnAnyWord(q: seq<FollowUp>, sender: string, body: string, e: FollowUp, j: nat)
    requires e in q && SameSender(e, sender) && e.stopKeywords == ParseStops("")
    requires !EndsWith(sender, GroupSuffix)
    requires j < |InboundText(body)| && IsWordChar(InboundText(body)[j])
    ensures StopRequested(q, sender, body)
  {
    ParseStopsDefault();
    EmptyKeywordMatches(InboundText(body));
    assert Lower("") == "";
    assert "" in e.stopKeywords;
    assert KeywordHit(e, InboundText(body));
    StopRequestedExactly(q, sender, body);
  }

  /** A stop removes exactly the sender's entries. */
  lemma {:induction false} WithoutSenderExact(q: seq<FollowUp>, sender: string)
    ensures forall e :: e in WithoutSender(q, sender) <==> e in q && !SameSender(e, sender)
    decreases |q|
  {
    if q != [] {
      WithoutSenderExact(q[..|q| - 1], sender);
      InitLast(q);
    }
  }

  /** A stop keeps the other entries in their order. */
  lemma {:induction false} WithoutSenderAppend(a: seq<FollowUp>, b: seq<FollowUp>, sender: string)
    ensures WithoutSender(a + b, sender) == WithoutSender(a, sender) + WithoutSender(b, sender)
    decreases |b|
  {
    if b == [] {
      assert a + b == a;
    } else {
      var b' := b[..|b| - 1];
      assert (a + b)[..|a + b| - 1] == a + b';
      WithoutSenderAppend(a, b', sender);
    }
  }

  /** A queue with nothing for the sender is left as it is. */
  lemma {:induction false} WithoutSenderAbsent(q: seq<FollowUp>, sender: string)
    requires forall i :: 0 <= i < |q| ==> !SameSender(q[i], sender)
    ensures WithoutSender(q, sender) == q
    decreases |q|
  {
    if q != [] {
      var init, last := q[..|q| - 1], q[|q| - 1];
      assert !SameSender(last, sender);
      assert forall i :: 0 <= i < |init| ==> !SameSender(init[i], sender);
      WithoutSenderAbsent(init, sender);
      assert WithoutSender(q, sender) == WithoutSender(init, sender) + [last];
      InitLast(q);
    }
  }

  /** After a stop, no later tick sends anything to that sender. */
  lemma {:induction false} StopSilencesSender(q: seq<FollowUp>, sender: string, now: int, spins: seq<seq<nat>>)
    ensures forall o :: o in Fired(WithoutSender(q, sender), now, spins) ==> Normalize(o.to) != Normalize(sender)
  {
    var r := WithoutSender(q, sender);
    WithoutSenderExact(q, sender);
    FiredAreDue(r, now, spins);
    DueSubset(r, now);
    forall o | o in Fired(r, now, spins)
      ensures Normalize(o.to) != Normalize(sender)
    {
      var i :| 0 <= i < |Fired(r, now, spins)| && Fired(r, now, spins)[i] == o;
      assert Due(r, now)[i] in r;
    }
  }

  lemma {:induction false} DueSubset(q: seq<FollowUp>, now: int)
    ensures forall e :: e in Due(q, now) ==> e in q
    decreases |q|
  {
    if q != [] {
      DueSubset(q[..|q| - 1], now);
      InitLast(q);
    }
  }

  // ---------------------------------------------------------------------
  // The queue
  // ---------------------------------------------------------------------

  class FollowUpQueue {
    var entries: seq<FollowUp>

    /** The queue as loaded at startup (an absent or unreadable store loads as []). */
    constructor (loaded: seq<FollowUp>)
      ensures entries == loaded
    {
      entries := loaded;
    }

    /** Pushes one entry per rule whose delay parses, each timed from `now`. */
    method Enqueue(to: string, rules: seq<Rule>, stops: seq<string>, now: int)
      modifies this
      ensures entries == old(entries) + Scheduled(to, rules, stops, now)
    {
      var i := 0;
      while i < |rules|
        invariant 0 <= i <= |rules|
        invariant entries == old(entries) + Scheduled(to, rules[..i], stops, now)
      {
        ScheduledStep(to, rules, i, stops, now);
        // the rule's entry when its delay parses, nothing otherwise
        var added := ScheduledBy(to, rules[i], stops, now);
        AppendAssoc(old(entries), Scheduled(to, rules[..i], stops, now), added);
        entries := entries + added;
        i := i + 1;
      }
      assert rules[..|rules|] == rules;
    }

    /**
     * One run of the periodic timer: sends every due entry, expanding its
     * spintax now, and drops it whether or not the send later succeeds.
     */
    method Tick(now: int, spins: seq<seq<nat>>) returns (sent: seq<Outgoing>)
      modifies this
      ensures entries == Pending(old(entries), now)
      ensures sent == Fired(old(entries), now, spins)
    {
      var q := entries;
      var kept: seq<FollowUp> := [];
      sent := [];
      var i := 0;
      while i < |q|
        invariant 0 <= i <= |q|
        invariant kept == Pending(q[..i], now)
        invariant sent == Fired(q[..i], now, spins)
      {
        assert q[..i + 1][..i] == q[..i];
        var fu := q[i];
        if fu.time <= now {
          sent := sent + [Outgoing(fu.phone, ExpandOptional(fu.message, SpinAt(spins, i)))];
        } else {
          kept := kept + [fu];
        }
        i := i + 1;
      }
      assert q[..|q|] == q;
      entries := kept;
    }

    /**
     * An inbound message. A group message changes nothing. Otherwise, if a
     * pending entry for the sender has a stop keyword that occurs in the
     * reply as a whole word, the lead update is posted and every entry for
     * the sender is removed.
     */
    method OnInbound(sender: string, body: string) returns (lead: Option<LeadUpdate>)
      modifies this
      ensures lead.Some? <==> StopRequested(old(entries), sender, body)
      ensures lead.Some? ==> lead.value == LeadUpdate(sender, LeadStage)
      ensures entries == if lead.Some? then WithoutSender(old(entries), sender) else old(entries)
    {
      lead := None;
      if EndsWith(sender, GroupSuffix) {
        return;
      }
      var text := InboundText(body);
      var stopCheck := ForSender(entries, sender);
      if |stopCheck| > 0 {
        var matched := FindStop(stopCheck, text);
        if matched.Some? {
          lead := Some(LeadUpdate(sender, LeadStage));
          entries := WithoutSender(entries, sender);
        }
      }
    }
  }
}
