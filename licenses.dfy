/**
 * The license list: keys bound to an e-mail address, some of them master
 * licenses. A check looks up the key and the address together; new keys are
 * drawn at random (`WBP-XXXXX-NNNNN-LD`) and refused when already present;
 * a master license cannot be deleted.
 */
module Licenses {
  import opened Wrappers
  import opened Text

  datatype License = License(key: string, email: string, isMaster: bool)

  // ---------------------------------------------------------------------
  // Checking
  // ---------------------------------------------------------------------

  /** `license_key === key && email === email`; a missing field matches no stored string. */
  predicate Matches(l: License, key: Option<string>, email: Option<string>)
  {
    key == Some(l.key) && email == Some(l.email)
  }

  /** `licenses.find(...)`: the first matching license. */
  function Find(ls: seq<License>, key: Option<string>, email: Option<string>): (r: Option<nat>)
    ensures r.Some? ==> r.value < |ls| && Matches(ls[r.value], key, email)
                        && forall j :: 0 <= j < r.value ==> !Matches(ls[j], key, email)
    ensures r.None? <==> forall j :: 0 <= j < |ls| ==> !Matches(ls[j], key, email)
  {
    if ls == [] then None
    else if Matches(ls[0], key, email) then Some(0)
    else match Find(ls[1..], key, email)
      case None => None
      case Some(k) => Some(k + 1)
  }

  datatype CheckResult = Valid(isMaster: bool) | Invalid

  /** `/api/check-license`. */
  function Check(ls: seq<License>, key: Option<string>, email: Option<string>): (r: CheckResult)
    ensures r.Valid? <==> exists j :: 0 <= j < |ls| && Matches(ls[j], key, email)
  {
    match Find(ls, key, email)
    case None => Invalid
    case Some(i) => Valid(ls[i].isMaster)
  }

  /** With unique keys, a license checks as itself. */
  lemma CheckFindsLicense(ls: seq<License>, i: nat)
    requires UniqueKeys(ls) && i < |ls|
    ensures Check(ls, Some(ls[i].key), Some(ls[i].email)) == Valid(ls[i].isMaster)
  {
    var r := Find(ls, Some(ls[i].key), Some(ls[i].email));
    assert r.Some?;
    assert ls[r.value].key == ls[i].key;
  }

  /** A license that was never stored does not check, whatever the address. */
  lemma CheckUnknownKey(ls: seq<License>, key: string, email: Option<string>)
    requires forall j :: 0 <= j < |ls| ==> ls[j].key != key
    ensures Check(ls, Some(key), email) == Invalid
  {
  }

  // ---------------------------------------------------------------------
  // Keys
  // ---------------------------------------------------------------------

  predicate UniqueKeys(ls: seq<License>)
  {
    forall i, j :: 0 <= i < j < |ls| ==> ls[i].key != ls[j].key
  }

  predicate HasKey(ls: seq<License>, key: string)
  {
    exists j :: 0 <= j < |ls| && ls[j].key == key
  }

  /**
   * The generated key `WBP-<rand>-<num>-<letter><digit>`, with the random
   * draws given: `rand` is the upper-cased base-36 fragment, `n`, `letter`
   * and `digit` the raw draws that fix a number in [10000, 99999], a letter
   * in A..Z and a digit in 0..8.
   */
  function MakeKey(rand: string, n: nat, letter: nat, digit: nat): (key: string)
    ensures |key| >= 4 && key[..4] == "WBP-"
    ensures 'A' <= key[|key| - 2] <= 'Z' && '0' <= key[|key| - 1] <= '8'
  {
    "WBP-" + rand + "-" + Decimal(10000 + n % 90000) + "-" + [('A' as int + letter % 26) as char] + [DigitChar(digit % 9)]
  }

  /** The number in the middle always has five digits. */
  lemma MakeKeyNumberWidth(n: nat)
    ensures |Decimal(10000 + n % 90000)| == 5
  {
    DecimalLength(10000 + n % 90000);
  }

  lemma {:induction false} DecimalLength(m: nat)
    requires 10000 <= m < 100000
    ensures |Decimal(m)| == 5
  {
    assert Decimal(m) == Decimal(m / 10) + [DigitChar(m % 10)];
    assert Decimal(m / 10) == Decimal(m / 100) + [DigitChar(m / 10 % 10)];
    assert Decimal(m / 100) == Decimal(m / 1000) + [DigitChar(m / 100 % 10)];
    assert Decimal(m / 1000) == Decimal(m / 10000) + [DigitChar(m / 1000 % 10)];
  }

  // ---------------------------------------------------------------------
  // Removing
  // ---------------------------------------------------------------------

  /** `licenses.findIndex(l => l.license_key === key)`. */
  function FindKey(ls: seq<License>, key: Option<string>): (r: Option<nat>)
    ensures r.Some? ==> r.value < |ls| && key == Some(ls[r.value].key)
                        && forall j :: 0 <= j < r.value ==> key != Some(ls[j].key)
    ensures r.None? <==> forall j :: 0 <= j < |ls| ==> key != Some(ls[j].key)
  {
    if ls == [] then None
    else if key == Some(ls[0].key) then Some(0)
    else match FindKey(ls[1..], key)
      case None => None
      case Some(k) => Some(k + 1)
  }

  /** `splice(i, 1)`. */
  function RemoveAt(ls: seq<License>, i: nat): (r: seq<License>)
    requires i < |ls|
    ensures |r| == |ls| - 1
    ensures multiset(r) + multiset{ls[i]} == multiset(ls)
  {
    assert ls == ls[..i] + [ls[i]] + ls[i + 1..];
    ls[..i] + ls[i + 1..]
  }

  /** Removing one license keeps the keys unique and removes its key altogether. */
  lemma RemoveAtKeys(ls: seq<License>, i: nat)
    requires UniqueKeys(ls) && i < |ls|
    ensures UniqueKeys(RemoveAt(ls, i))
    ensures !HasKey(RemoveAt(ls, i), ls[i].key)
  {
    var r := RemoveAt(ls, i);
    forall j | 0 <= j < |r| ensures r[j] == if j < i then ls[j] else ls[j + 1] {}
    forall j | 0 <= j < |r| ensures r[j].key != ls[i].key {
      if j >= i { assert r[j] == ls[j + 1]; }
    }
  }

  /** Appending a license with a fresh key keeps the keys unique. */
  lemma AppendFreshKey(ls: seq<License>, l: License)
    requires UniqueKeys(ls) && !HasKey(ls, l.key)
    ensures UniqueKeys(ls + [l])
  {
    var r := ls + [l];
    forall i, j | 0 <= i < j < |r| ensures r[i].key != r[j].key {
      if j == |ls| {
        assert r[i] == ls[i];
      }
    }
  }

  // ---------------------------------------------------------------------
  // The stored list
  // ---------------------------------------------------------------------

  datatype AddResult = EmailRequired | DupKey | Added(license: License)

  datatype DeleteResult = NotFound | CannotDeleteMaster | Deleted

  class LicenseList {
    var licenses: seq<License>

    constructor (loaded: seq<License>)
      ensures licenses == loaded
    {
      licenses := loaded;
    }

    /**
     * `/api/add-license`. `masterInt` is `parseInt(is_master)` (None for NaN;
     * an absent field reads as 0); `rand`, `n`, `letter` and `digit` are the
     * random draws of the key, as for `MakeKey`.
     */
    method Add(email: Option<string>, masterInt: Option<int>, rand: string, n: nat, letter: nat, digit: nat)
      returns (r: AddResult)
      modifies this
      ensures var key := MakeKey(rand, n, letter, digit);
              && (email.None? || email.value == "" ==> r == EmailRequired && licenses == old(licenses))
              && (email.Some? && email.value != "" && HasKey(old(licenses), key) ==> r == DupKey && licenses == old(licenses))
              && (email.Some? && email.value != "" && !HasKey(old(licenses), key) ==>
                    r == Added(License(key, email.value, masterInt.Some? && masterInt.value != 0))
                    && licenses == old(licenses) + [r.license])
      ensures UniqueKeys(old(licenses)) ==> UniqueKeys(licenses)
    {
      if email.None? || email.value == "" {
        return EmailRequired;
      }
      var key := MakeKey(rand, n, letter, digit);
      if HasKey(licenses, key) {
        return DupKey;
      }
      var l := License(key, email.value, masterInt.Some? && masterInt.value != 0);
      if UniqueKeys(licenses) {
        AppendFreshKey(licenses, l);
      }
      licenses := licenses + [l];
      r := Added(l);
    }

    /** `/api/delete-license`: removes the first license with the key unless it is a master license. */
    method Delete(key: Option<string>) returns (r: DeleteResult)
      modifies this
      ensures var i := FindKey(old(licenses), key);
              && (i.None? ==> r == NotFound && licenses == old(licenses))
              && (i.Some? && old(licenses)[i.value].isMaster ==> r == CannotDeleteMaster && licenses == old(licenses))
              && (i.Some? && !old(licenses)[i.value].isMaster ==> r == Deleted && licenses == RemoveAt(old(licenses), i.value))
      ensures UniqueKeys(old(licenses)) ==> UniqueKeys(licenses)
    {
      var i := FindKey(licenses, key);
      if i.None? {
        return NotFound;
      }
      if licenses[i.value].isMaster {
        return CannotDeleteMaster;
      }
      if UniqueKeys(licenses) {
        RemoveAtKeys(licenses, i.value);
      }
      licenses := RemoveAt(licenses, i.value);
      r := Deleted;
    }
  }

  /** After a successful add under unique keys, the keys stay unique and the new license checks. */
  lemma AddedChecks(ls: seq<License>, l: License)
    requires UniqueKeys(ls) && !HasKey(ls, l.key)
    ensures UniqueKeys(ls + [l])
    ensures Check(ls + [l], Some(l.key), Some(l.email)) == Valid(l.isMaster)
  {
    AppendFreshKey(ls, l);
    CheckFindsLicense(ls + [l], |ls|);
  }

  /** After a delete under unique keys, the key no longer checks, for any address. */
  lemma DeletedNoLongerChecks(ls: seq<License>, key: string, email: Option<string>)
    requires UniqueKeys(ls)
    requires FindKey(ls, Some(key)).Some?
    ensures var i := FindKey(ls, Some(key)).value;
            UniqueKeys(RemoveAt(ls, i)) && Check(RemoveAt(ls, i), Some(key), email) == Invalid
  {
    var i := FindKey(ls, Some(key)).value;
    RemoveAtKeys(ls, i);
    var r := RemoveAt(ls, i);
    CheckUnknownKey(r, key, email);
  }

  /** A master license survives every delete. */
  lemma DeleteKeepsMasters(ls: seq<License>, i: nat)
    requires i < |ls| && !ls[i].isMaster
    ensures forall l :: l in ls && l.isMaster ==> l in RemoveAt(ls, i)
  {
    var r := RemoveAt(ls, i);
    forall l | l in ls && l.isMaster ensures l in r {
      assert l in multiset(ls);
      assert l != ls[i];
      assert l in multiset(r);
    }
  }
}
