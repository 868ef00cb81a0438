/**
 * The auto-reply keyword list: records `{id, keyword, response}` kept in a
 * store that reads as the empty list when it does not exist yet. A message
 * is answered with the response of the first record whose keyword occurs in
 * it, ignoring case.
 */
module AutoReply {
  import opened Wrappers
  import opened Text

  /** A stored record; `id` is the creation time in milliseconds. */
  datatype Keyword = Keyword(id: nat, keyword: string, response: string)

  // ---------------------------------------------------------------------
  // Matching (`/check-message`)
  // ---------------------------------------------------------------------

  /** The lower-cased keyword is a substring of the lower-cased message. */
  predicate Hits(k: Keyword, message: string)
  {
    Includes(Lower(message), Lower(k.keyword))
  }

  /** `keywords.find(...)`: the index of the first record that hits. */
  function FirstMatch(ks: seq<Keyword>, message: string): (r: Option<nat>)
    ensures r.Some? ==> r.value < |ks| && Hits(ks[r.value], message)
                        && forall j :: 0 <= j < r.value ==> !Hits(ks[j], message)
    ensures r.None? <==> forall j :: 0 <= j < |ks| ==> !Hits(ks[j], message)
  {
    if ks == [] then None
    else if Hits(ks[0], message) then Some(0)
    else match FirstMatch(ks[1..], message)
      case None => None
      case Some(i) => Some(i + 1)
  }

  /** Two first-match results that satisfy the same characterisation are equal. */
  lemma FirstMatchUnique(ks: seq<Keyword>, m1: string, m2: string)
    requires forall j :: 0 <= j < |ks| ==> (Hits(ks[j], m1) <==> Hits(ks[j], m2))
    ensures FirstMatch(ks, m1) == FirstMatch(ks, m2)
  {
    var a, b := FirstMatch(ks, m1), FirstMatch(ks, m2);
    if a.Some? && b.Some? {
      assert forall j :: 0 <= j < a.value ==> !Hits(ks[j], m2);
      assert forall j :: 0 <= j < b.value ==> !Hits(ks[j], m1);
    }
  }

  /** Matching ignores the case of the message. */
  lemma MatchIgnoresCase(ks: seq<Keyword>, message: string)
    ensures FirstMatch(ks, Lower(message)) == FirstMatch(ks, message)
  {
    LowerIsLower(message);
    LowerFixedPoint(Lower(message));
    FirstMatchUnique(ks, Lower(message), message);
  }

  /** A record with an empty keyword matches every message, so nothing after it is ever chosen. */
  lemma EmptyKeywordMatches(ks: seq<Keyword>, message: string, j: nat)
    requires j < |ks| && ks[j].keyword == ""
    ensures FirstMatch(ks, message).Some? && FirstMatch(ks, message).value <= j
  {
    IncludesEmpty(Lower(message));
    assert Hits(ks[j], message);
  }

  /** A record appended at the end is chosen only when no earlier record hits. */
  lemma {:induction false} FirstMatchAppend(ks: seq<Keyword>, k: Keyword, message: string)
    ensures FirstMatch(ks + [k], message) ==
              if FirstMatch(ks, message).Some? then FirstMatch(ks, message)
              else if Hits(k, message) then Some(|ks|)
              else None
  {
    var all := ks + [k];
    if ks == [] {
      assert all[1..] == [];
    } else {
      assert all[0] == ks[0] && all[1..] == ks[1..] + [k];
      if !Hits(ks[0], message) {
        FirstMatchAppend(ks[1..], k, message);
      }
    }
  }

  /** What `/check-message` does: reply to the sender, report the failed reply, or report no match. */
  datatype CheckOutcome = Replied(to: string, text: string) | ReplyFailed(to: string, text: string) | NoMatch

  /** `delivered` is the outcome of the send, given as an input. */
  function CheckMessage(ks: seq<Keyword>, from: string, message: string, delivered: bool): (r: CheckOutcome)
    ensures r.NoMatch? <==> forall j :: 0 <= j < |ks| ==> !Hits(ks[j], message)
    ensures r.Replied? ==> delivered
    ensures r.ReplyFailed? ==> !delivered
    ensures !r.NoMatch? ==> r.to == from && exists j :: 0 <= j < |ks| && Hits(ks[j], message) && r.text == ks[j].response
    ensures !r.NoMatch? ==> FirstMatch(ks, message).Some? && r.text == ks[FirstMatch(ks, message).value].response
  {
    match FirstMatch(ks, message)
    case None => NoMatch
    case Some(i) => if delivered then Replied(from, ks[i].response) else ReplyFailed(from, ks[i].response)
  }

  // ---------------------------------------------------------------------
  // Deleting (`k.id != id` with a numeric id and a string parameter)
  // ---------------------------------------------------------------------

  /**
   * `Number(s)` for the forms an id parameter takes: after trimming, the
   * empty string is 0 and an optionally signed digit string is its value;
   * anything else is NaN (None).
   */
  function ToNumber(s: string): Option<int>
  {
    var t := Trim(s);
    if t == [] then Some(0)
    else if AllDigits(t) then Some(DecimalValue(t))
    else if |t| >= 2 && t[0] == '+' && AllDigits(t[1..]) then Some(DecimalValue(t[1..]))
    else if |t| >= 2 && t[0] == '-' && AllDigits(t[1..]) then Some(0 - DecimalValue(t[1..]) as int)
    else None
  }

  /** A digit string has no surrounding whitespace, so it reads as its decimal value. */
  lemma ToNumberDigits(s: string)
    requires AllDigits(s) && s != []
    ensures ToNumber(s) == Some(DecimalValue(s))
  {
    assert !IsSpace(s[0]) && !IsSpace(s[|s| - 1]);
    TrimIdentity(s);
  }

  /** `id == param` between a number and a string: the string is read as a number; NaN equals nothing. */
  predicate LooseEquals(id: nat, param: string)
  {
    ToNumber(param) == Some(id)
  }

  /** The path parameter written as the decimal id selects exactly that id. */
  lemma LooseEqualsDecimal(id: nat, n: nat)
    ensures LooseEquals(id, Decimal(n)) <==> id == n
  {
    ToNumberDigits(Decimal(n));
    DecimalRoundTrip(n);
  }

  /** `keywords.filter(k => k.id != param)`. */
  function Without(ks: seq<Keyword>, param: string): (r: seq<Keyword>)
    ensures |r| <= |ks|
    ensures forall j :: 0 <= j < |r| ==> r[j] in ks && !LooseEquals(r[j].id, param)
    ensures forall k :: k in ks && !LooseEquals(k.id, param) ==> k in r
  {
    if ks == [] then []
    else (if LooseEquals(ks[0].id, param) then [] else [ks[0]]) + Without(ks[1..], param)
  }

  /** Filtering works piecewise, so the kept records stay in their order. */
  lemma {:induction false} WithoutAppend(a: seq<Keyword>, b: seq<Keyword>, param: string)
    ensures Without(a + b, param) == Without(a, param) + Without(b, param)
  {
    if a == [] {
      assert a + b == b;
    } else {
      TailAppend(a, b);
      WithoutAppend(a[1..], b, param);
    }
  }

  /** Deleting an id that no record has leaves the list as it was. */
  lemma {:induction false} WithoutAbsent(ks: seq<Keyword>, param: string)
    requires forall j :: 0 <= j < |ks| ==> !LooseEquals(ks[j].id, param)
    ensures Without(ks, param) == ks
  {
    if ks != [] {
      WithoutAbsent(ks[1..], param);
    }
  }

  // ---------------------------------------------------------------------
  // The store
  // ---------------------------------------------------------------------

  datatype AddReply = MissingField | KeywordAdded(id: nat)

  class KeywordStore {
    var keywords: seq<Keyword>

    /** `loadKeywords`: a store that does not exist yet reads as the empty list. */
    constructor (stored: Option<seq<Keyword>>)
      ensures keywords == if stored.Some? then stored.value else []
    {
      keywords := if stored.Some? then stored.value else [];
    }

    /** `POST /keywords`: both fields are required; the new record's id is the time `now`. */
    method Add(keyword: Option<string>, response: Option<string>, now: nat) returns (r: AddReply)
      modifies this
      ensures (keyword.None? || keyword.value == "" || response.None? || response.value == "") <==> r == MissingField
      ensures r == MissingField ==> keywords == old(keywords)
      ensures r.KeywordAdded? ==> r.id == now && keywords == old(keywords) + [Keyword(now, keyword.value, response.value)]
    {
      if keyword.None? || keyword.value == "" || response.None? || response.value == "" {
        return MissingField;
      }
      keywords := keywords + [Keyword(now, keyword.value, response.value)];
      r := KeywordAdded(now);
    }

    /** `DELETE /keywords/:id`: every record whose id equals the parameter goes; this always succeeds. */
    method Delete(param: string)
      modifies this
      ensures keywords == Without(old(keywords), param)
    {
      keywords := Without(keywords, param);
    }
  }

  /** A keyword just added answers a message that contains it, unless an earlier record answers first. */
  lemma AddedKeywordAnswers(ks: seq<Keyword>, k: Keyword, from: string, message: string)
    requires Includes(Lower(message), Lower(k.keyword))
    ensures FirstMatch(ks + [k], message).Some?
    ensures FirstMatch(ks, message).None? ==> CheckMessage(ks + [k], from, message, true) == Replied(from, k.response)
  {
    FirstMatchAppend(ks, k, message);
  }
}
