/**
 * The device registry: one messaging client per device id, created on first
 * use, with the last QR code and a status text per device. The per-device
 * client objects are reduced to their ids; the client library's events
 * (`qr`, `ready`, `auth_failure`, `disconnected`) arrive through `OnEvent`.
 */
module Devices {
  import opened Wrappers
  import Text

  /** The device created at start-up. */
  const DefaultDevice: string := "default"

  datatype Status = Loading | AwaitingScan | Connected(name: string) | AuthFailed | Disconnected

  /** The status text shown to the user. */
  function Label(s: Status): (t: string)
    ensures |t| >= 2 && t[1] == ' '
  {
    match s
    case Loading => "\U{1F503} Memuat..."
    case AwaitingScan => "\U{1F504} Menunggu Scan QR"
    case Connected(name) => "\U{1F7E2} Terhubung: " + name
    case AuthFailed => "\U{1F534} Gagal Autentikasi"
    case Disconnected => "\U{1F534} Terputus"
  }

  /** What `/status` answers for a device without a status. */
  const UnknownLabel: string := "Tidak Diketahui"

  /** The green mark opens exactly the connected status. */
  lemma LabelMark(s: Status)
    ensures Label(s)[0] == '\U{1F7E2}' <==> s.Connected?
  {
  }

  /** Different statuses are shown differently, so the text identifies the status. */
  lemma LabelInjective(s: Status, t: Status)
    requires Label(s) == Label(t)
    ensures s == t
  {
    LabelMark(s);
    LabelMark(t);
    if s.Connected? {
      var prefix := "\U{1F7E2} Terhubung: ";
      assert Label(s)[|prefix|..] == s.name;
      assert Label(t)[|prefix|..] == t.name;
    } else {
      assert Label(s)[2] == Label(t)[2];
      assert Label(s)[3] == Label(t)[3];
    }
  }

  /** A status text is never the unknown-status fallback. */
  lemma LabelNotUnknown(s: Status)
    ensures Label(s) != UnknownLabel
  {
    assert UnknownLabel[1] != ' ';
  }

  /** An event the client of one device emits. */
  datatype Event = Qr(code: string) | Ready(pushname: Option<string>) | AuthFailure | Lost(reason: string)

  /** The status a device takes on an event. */
  function StatusAfter(id: string, ev: Event, s: Status): (t: Status)
    ensures ev.Qr? ==> t == AwaitingScan
    ensures ev.AuthFailure? ==> t == AuthFailed
    ensures ev.Lost? ==> t == Disconnected
    ensures ev.Ready? ==> t.Connected?
    ensures ev.Ready? && ev.pushname.Some? && ev.pushname.value != "" ==> t.name == ev.pushname.value
    ensures ev.Ready? && (ev.pushname.None? || ev.pushname.value == "") ==> t.name == id
  {
    match ev
    case Qr(_) => AwaitingScan
    case Ready(pushname) => Connected(if pushname.Some? && pushname.value != "" then pushname.value else id)
    case AuthFailure => AuthFailed
    case Lost(_) => Disconnected
  }

  /** Each id paired with its status text. */
  function Listing(ids: seq<string>, status: map<string, Status>): (list: seq<(string, string)>)
    requires forall i :: 0 <= i < |ids| ==> ids[i] in status
    ensures |list| == |ids|
    ensures forall i :: 0 <= i < |ids| ==> list[i].0 == ids[i] && list[i].1 == Label(status[ids[i]])
  {
    seq(|ids|, i requires 0 <= i < |ids| => (ids[i], Label(status[ids[i]])))
  }

  // ---------------------------------------------------------------------
  // The order of `Object.keys`
  // ---------------------------------------------------------------------

  /**
   * An id that a JavaScript object keeps as an array index: the canonical
   * decimal form (no leading zero) of a number below 2^32 - 1
   * (section 6.1.7 of ECMA-262).
   */
  predicate IsArrayIndex(id: string)
  {
    id != [] && Text.AllDigits(id) && (id[0] != '0' || |id| == 1) && Text.DecimalValue(id) < 0xFFFF_FFFF
  }

  /** The numeric value an index id is ordered by. */
  function IndexValue(id: string): nat
  {
    if Text.AllDigits(id) then Text.DecimalValue(id) else 0
  }

  predicate Ascending(ids: seq<string>)
  {
    forall i, j :: 0 <= i < j < |ids| ==> IndexValue(ids[i]) <= IndexValue(ids[j])
  }

  /** The index ids of `ids`, in creation order. */
  function IndexIds(ids: seq<string>): (r: seq<string>)
    ensures forall i :: 0 <= i < |r| ==> IsArrayIndex(r[i])
  {
    if ids == [] then []
    else (if IsArrayIndex(ids[0]) then [ids[0]] else []) + IndexIds(ids[1..])
  }

  /** The other ids of `ids`, in creation order. */
  function OtherIds(ids: seq<string>): (r: seq<string>)
    ensures forall i :: 0 <= i < |r| ==> !IsArrayIndex(r[i])
  {
    if ids == [] then []
    else (if IsArrayIndex(ids[0]) then [] else [ids[0]]) + OtherIds(ids[1..])
  }

  /** Splitting the ids into index and other ids loses none and adds none. */
  lemma {:induction false} PartitionIds(ids: seq<string>)
    ensures multiset(IndexIds(ids)) + multiset(OtherIds(ids)) == multiset(ids)
  {
    if ids != [] {
      PartitionIds(ids[1..]);
      assert ids == [ids[0]] + ids[1..];
    }
  }

  /** Inserting an index id before the first id of no smaller value. */
  function Insert(id: string, sorted: seq<string>): (r: seq<string>)
    ensures multiset(r) == multiset(sorted) + multiset{id}
    ensures r[0] == id || (sorted != [] && r[0] == sorted[0])
  {
    if sorted == [] then [id]
    else if IndexValue(id) <= IndexValue(sorted[0]) then [id] + sorted
    else
      var rest := Insert(id, sorted[1..]);
      assert sorted == [sorted[0]] + sorted[1..];
      [sorted[0]] + rest
  }

  /** Inserting into an ascending sequence keeps it ascending. */
  lemma {:induction false} InsertAscending(id: string, sorted: seq<string>)
    requires Ascending(sorted)
    ensures Ascending(Insert(id, sorted))
  {
    if sorted != [] && IndexValue(sorted[0]) < IndexValue(id) {
      var rest := Insert(id, sorted[1..]);
      var r := Insert(id, sorted);
      assert r == [sorted[0]] + rest;
      assert Ascending(sorted[1..]) by {
        forall i, j | 0 <= i < j < |sorted[1..]|
          ensures IndexValue(sorted[1..][i]) <= IndexValue(sorted[1..][j])
        {
          assert sorted[1..][i] == sorted[i + 1] && sorted[1..][j] == sorted[j + 1];
        }
      }
      InsertAscending(id, sorted[1..]);
      assert IndexValue(sorted[0]) <= IndexValue(rest[0]);
      forall i, j | 0 <= i < j < |r| ensures IndexValue(r[i]) <= IndexValue(r[j]) {
        if i == 0 {
          assert r[j] == rest[j - 1];
          assert j == 1 || IndexValue(rest[0]) <= IndexValue(rest[j - 1]);
        } else {
          assert r[i] == rest[i - 1] && r[j] == rest[j - 1];
        }
      }
    }
  }

  /** The ids sorted by numeric value. */
  function SortIndices(ids: seq<string>): (r: seq<string>)
    ensures multiset(r) == multiset(ids)
    ensures Ascending(r)
  {
    if ids == [] then []
    else
      var r := Insert(ids[0], SortIndices(ids[1..]));
      InsertAscending(ids[0], SortIndices(ids[1..]));
      assert ids == [ids[0]] + ids[1..];
      r
  }

  /**
   * The order in which `Object.keys` lists the devices created in the order
   * `ids`: the index ids in ascending numeric order, then the others in
   * creation order. It lists each device once (`KeyOrderLayout` gives the
   * arrangement).
   */
  function KeyOrder(ids: seq<string>): (r: seq<string>)
    ensures multiset(r) == multiset(ids) && |r| == |ids|
  {
    var r := SortIndices(IndexIds(ids)) + OtherIds(ids);
    PartitionIds(ids);
    assert |r| == |ids| by {
      assert |multiset(r)| == |multiset(ids)|;
    }
    r
  }

  /** Every listed id is one of the ids. */
  lemma KeyOrderMembers(ids: seq<string>)
    ensures forall i :: 0 <= i < |KeyOrder(ids)| ==> KeyOrder(ids)[i] in ids
  {
    var r := KeyOrder(ids);
    forall i | 0 <= i < |r| ensures r[i] in ids {
      assert r[i] in multiset(ids);
    }
  }

  /** The index ids come first, in ascending numeric order, and the others follow in creation order. */
  lemma KeyOrderLayout(ids: seq<string>)
    ensures |IndexIds(ids)| <= |KeyOrder(ids)|
    ensures forall i :: 0 <= i < |KeyOrder(ids)| ==> (IsArrayIndex(KeyOrder(ids)[i]) <==> i < |IndexIds(ids)|)
    ensures Ascending(KeyOrder(ids)[..|IndexIds(ids)|])
    ensures KeyOrder(ids)[|IndexIds(ids)|..] == OtherIds(ids)
  {
    var first := SortIndices(IndexIds(ids));
    var r := KeyOrder(ids);
    assert r == first + OtherIds(ids);
    assert forall i :: 0 <= i < |first| ==> IsArrayIndex(first[i]) by {
      forall i | 0 <= i < |first| ensures IsArrayIndex(first[i]) {
        assert first[i] in multiset(IndexIds(ids));
      }
    }
    assert |first| == |IndexIds(ids)| by {
      assert |multiset(first)| == |multiset(IndexIds(ids))|;
    }
    assert r[..|first|] == first;
    assert r[|first|..] == OtherIds(ids);
  }

  /** Without index ids, `Object.keys` keeps creation order. */
  lemma {:induction false} KeyOrderNoIndex(ids: seq<string>)
    requires forall i :: 0 <= i < |ids| ==> !IsArrayIndex(ids[i])
    ensures KeyOrder(ids) == ids
  {
    NoIndexIds(ids);
  }

  lemma {:induction false} NoIndexIds(ids: seq<string>)
    requires forall i :: 0 <= i < |ids| ==> !IsArrayIndex(ids[i])
    ensures IndexIds(ids) == [] && OtherIds(ids) == ids
  {
    if ids != [] {
      NoIndexIds(ids[1..]);
      assert ids == [ids[0]] + ids[1..];
    }
  }

  /** The default device, then devices "2" and "1": the numeric ids come first, ascending. */
  lemma KeyOrderExample()
    ensures KeyOrder([DefaultDevice, "2", "1"]) == ["1", "2", DefaultDevice]
  {
    var ids := [DefaultDevice, "2", "1"];
    calc {
      KeyOrder(ids);
      SortIndices(IndexIds(ids)) + OtherIds(ids);
      { ExampleSplit(); }
      SortIndices(["2", "1"]) + [DefaultDevice];
      { ExampleSort(); }
      ["1", "2"] + [DefaultDevice];
    }
  }

  lemma ExampleSplit()
    ensures IndexIds([DefaultDevice, "2", "1"]) == ["2", "1"]
    ensures OtherIds([DefaultDevice, "2", "1"]) == [DefaultDevice]
  {
    var ids := [DefaultDevice, "2", "1"];
    assert !IsArrayIndex(DefaultDevice) by {
      assert !Text.IsDigit(DefaultDevice[0]);
    }
    assert IsArrayIndex("2") && IsArrayIndex("1") by {
      assert "2"[..0] == [] && "1"[..0] == [];
    }
    assert ids[1..] == ["2", "1"] && ["2", "1"][1..] == ["1"] && ["1"][1..] == [];
    assert IndexIds(["1"]) == ["1"] && OtherIds(["1"]) == [];
    assert IndexIds(["2", "1"]) == ["2"] + IndexIds(["1"]);
    assert OtherIds(["2", "1"]) == [];
    assert IndexIds(ids) == IndexIds(["2", "1"]);
    assert OtherIds(ids) == [DefaultDevice] + OtherIds(["2", "1"]);
  }

  lemma ExampleSort()
    ensures SortIndices(["2", "1"]) == ["1", "2"]
  {
    assert IndexValue("2") == 2 && IndexValue("1") == 1 by {
      assert "2"[..0] == [] && "1"[..0] == [];
    }
    assert ["2", "1"][1..] == ["1"] && ["1"][1..] == [];
    assert SortIndices(["1"]) == ["1"];
    assert Insert("2", ["1"]) == ["1"] + Insert("2", []);
  }

  datatype QrAnswer = QrImage(code: string) | QrNotReady

  class DeviceRegistry {
    /** The device ids with a client, in creation order (`clients` is keyed by these). */
    var clients: seq<string>
    var status: map<string, Status>
    var qr: map<string, string>

    /** Every device has exactly one client and one status, and a QR only when it has a client. */
    ghost predicate Valid()
      reads this
    {
      && (forall i, j :: 0 <= i < j < |clients| ==> clients[i] != clients[j])
      && (forall id :: id in status <==> id in clients)
      && (forall id :: id in qr ==> id in clients)
    }

    /** The registry at start-up, with the default device being set up. */
    constructor ()
      ensures Valid()
      ensures clients == [DefaultDevice] && status == map[DefaultDevice := Loading] && qr == map[]
    {
      clients := [DefaultDevice];
      status := map[DefaultDevice := Loading];
      qr := map[];
    }

    /** `initClient`: create the device's client unless it has one. */
    method InitClient(id: string)
      requires Valid()
      modifies this
      ensures Valid()
      ensures id in clients && qr == old(qr)
      ensures id in old(clients) ==> clients == old(clients) && status == old(status)
      ensures id !in old(clients) ==> clients == old(clients) + [id] && status == old(status)[id := Loading]
    {
      if id in clients {
        return;
      }
      clients := clients + [id];
      status := status[id := Loading];
    }

    /** An event from the client of a registered device. The `ready` event leaves the QR in place. */
    method OnEvent(id: string, ev: Event)
      requires Valid() && id in clients
      modifies this
      ensures Valid()
      ensures clients == old(clients)
      ensures status == old(status)[id := StatusAfter(id, ev, old(status)[id])]
      ensures qr == if ev.Qr? then old(qr)[id := ev.code] else old(qr)
    {
      if ev.Qr? {
        qr := qr[id := ev.code];
      }
      status := status[id := StatusAfter(id, ev, status[id])];
    }

    /**
     * `/qr/:id`: the stored QR when there is a non-empty one; otherwise the
     * device's client is created (if needed) and the QR is not ready yet.
     */
    method QrLookup(id: string) returns (answer: QrAnswer)
      requires Valid()
      modifies this
      ensures Valid()
      ensures answer.QrImage? <==> id in old(qr) && old(qr)[id] != ""
      ensures answer.QrImage? ==> answer.code == old(qr)[id]
                                  && clients == old(clients) && status == old(status) && qr == old(qr)
      ensures answer.QrNotReady? ==> id in clients && qr == old(qr)
                                     && clients == (if id in old(clients) then old(clients) else old(clients) + [id])
                                     && status == (if id in old(clients) then old(status) else old(status)[id := Loading])
    {
      if id in qr && qr[id] != "" {
        return QrImage(qr[id]);
      }
      InitClient(id);
      answer := QrNotReady;
    }

    /**
     * `/status/:id`: a device without a status gets a client first; the answer
     * is its status text, so the unknown-status fallback is never given.
     */
    method StatusLookup(id: string) returns (text: string)
      requires Valid()
      modifies this
      ensures Valid()
      ensures id in status && text == Label(status[id]) && text != UnknownLabel
      ensures id in old(status) ==> clients == old(clients) && status == old(status) && qr == old(qr)
      ensures id !in old(status) ==> clients == old(clients) + [id] && status == old(status)[id := Loading] && qr == old(qr)
    {
      if id !in status {
        InitClient(id);
      }
      text := if id in status then Label(status[id]) else UnknownLabel;
      LabelNotUnknown(status[id]);
    }

    /** `/devices`: every device with its status text, in the order `Object.keys` gives. */
    function DeviceList(): (list: seq<(string, string)>)
      requires Valid()
      reads this
      ensures |list| == |clients|
      ensures forall i :: 0 <= i < |list| ==> list[i].0 == KeyOrder(clients)[i]
      ensures forall i :: 0 <= i < |list| ==> list[i].0 in status && list[i].1 == Label(status[list[i].0])
    {
      var ids := KeyOrder(clients);
      KeyOrderMembers(clients);
      assert forall i :: 0 <= i < |ids| ==> ids[i] in status;
      Listing(ids, status)
    }
  }

  /**
   * Creating a client is idempotent: after `InitClient(id)` the id is
   * registered, so a second call changes nothing.
   */
  method InitTwice(r: DeviceRegistry, id: string)
    requires r.Valid()
    modifies r
    ensures r.Valid()
    ensures r.clients == (if id in old(r.clients) then old(r.clients) else old(r.clients) + [id])
    ensures r.status == (if id in old(r.clients) then old(r.status) else old(r.status)[id := Loading])
    ensures r.qr == old(r.qr)
  {
    r.InitClient(id);
    ghost var once := r.clients;
    r.InitClient(id);
    assert r.clients == once;
  }

  /** The scenario: a QR arrives, then the device connects; the QR is still served. */
  method QrThenReady(r: DeviceRegistry, id: string, code: string)
    requires r.Valid() && id in r.clients && code != ""
    modifies r
    ensures id in r.status && r.status[id] == Connected(id)
    ensures id in r.qr && r.qr[id] == code
  {
    r.OnEvent(id, Qr(code));
    r.OnEvent(id, Ready(None));
  }
}
