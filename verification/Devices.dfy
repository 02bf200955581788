/** The device registry: scans that update known devices, add new ones and prune duplicates. */
module Devices {
  import opened Model
  import opened Fingerprints

  const PENDING := "<pending...>"

  /** A way to reach a device. */
  datatype Bridge = Bridge(network: bool, up: bool, ip: string, port: Option<int>, deviceID: string)

  /** What a scan reports about a device and overwrites at each update. */
  datatype Info = Info(
    connected: bool, authorized: bool, defaultBridge: Option<string>,
    model: string, device: string, product: string, transportId: string, usbQualifier: string)

  datatype Dev = Dev(uid: string, id: Option<string>, fp: Fingerprint, bridges: map<string, Bridge>, info: Info)

  type Registry = map<string, Dev>

  // ---------- specification ----------

  function Disconnected(d: Dev): Dev {
    d.(bridges := map n | n in d.bridges :: d.bridges[n].(up := false), info := d.info.(connected := false))
  }

  predicate Connected(d: Dev) {
    exists n :: n in d.bridges && d.bridges[n].up
  }

  /** A known device takes over what the candidate reports, and its bridges name by name. */
  function Updated(d: Dev, c: Dev): Dev {
    Dev(d.uid, if d.id.None? then c.id else d.id, d.fp, d.bridges + c.bridges, c.info)
  }

  ghost function Matches(r: Registry, fp: Fingerprint): set<string> {
    set u | u in r && Compare(r[u].fp, fp) == Some(true)
  }

  /** The comparison with some device fails. */
  ghost predicate Fails(r: Registry, fp: Fingerprint) {
    exists u :: u in r && Compare(r[u].fp, fp).None?
  }

  /** A candidate updates the one device that matches it, and is added in any other case. */
  ghost function Received(r: Registry, c: Dev, uid: string): Registry {
    var ms := Matches(r, c.fp);
    if |ms| == 1 then
      var u :| u in ms;
      r[u := Updated(r[u], c)]
    else r[uid := c.(uid := uid)]
  }

  /** The registry after the first `k` candidates; `uids` are the identifiers drawn for additions. */
  ghost function Scanned(r: Registry, cs: seq<Dev>, uids: seq<string>, k: nat): Registry
    requires k <= |cs| == |uids|
  {
    if k == 0 then r else Received(Scanned(r, cs, uids, k - 1), cs[k - 1], uids[k - 1])
  }

  /** The comparison fails for one of the first `n` candidates. */
  ghost predicate Stuck(r: Registry, cs: seq<Dev>, uids: seq<string>, n: nat)
    requires n <= |cs| == |uids|
  {
    exists k :: 0 <= k < n && Fails(Scanned(r, cs, uids, k), cs[k].fp)
  }

  ghost predicate FoundByIP(r: Registry, ip: string, port: Option<int>, up: bool) {
    exists u, n :: u in r && n in r[u].bridges && Serves(r[u].bridges[n], ip, port, up)
  }

  predicate Serves(b: Bridge, ip: string, port: Option<int>, up: bool) {
    b.network && b.ip == ip && (port.None? || b.port == port) && (up ==> b.up)
  }

  ghost predicate FoundByID(r: Registry, id: string) {
    exists u :: u in r && r[u].id == Some(id)
  }

  ghost predicate Found(r: Registry, b: Bridge) {
    if b.network then FoundByIP(r, b.ip, b.port, false) else FoundByID(r, b.deviceID)
  }

  /** A pending device stays only for a bridge under which no device is found. */
  ghost predicate Kept(r: Registry, d: Dev) {
    d.id == Some(PENDING) ==> exists n :: n in d.bridges && !Found(r, d.bridges[n])
  }

  ghost function Pruned(r: Registry): Registry {
    map u | u in r && Kept(r, r[u]) :: r[u]
  }

  ghost predicate WellFormed(r: Registry) {
    && (forall u :: u in r ==> r[u].uid == u)
    && (forall u, v :: u in r && v in r && r[u].fp == r[v].fp ==> u == v)
  }

  ghost function Prints(r: Registry): set<Fingerprint> {
    set u | u in r :: r[u].fp
  }

  ghost predicate AllComparable(fs: set<Fingerprint>) {
    forall a, b :: a in fs && b in fs ==> Comparable(a, b)
  }

  // ---------- one candidate ----------

  lemma MatchesAre(r: Registry, fp: Fingerprint, fs: set<Fingerprint>)
    requires AllComparable(fs) && Prints(r) <= fs && fp in fs
    ensures !Fails(r, fp)
    ensures forall u :: u in Matches(r, fp) <==> u in r && r[u].fp == fp
  {
    forall u | u in r
      ensures Compare(r[u].fp, fp) == Some(r[u].fp == fp)
    {
      assert r[u].fp in Prints(r);
      CompareIsEquality(r[u].fp, fp);
    }
  }

  /** In a well-formed registry a candidate meets its device or none. */
  lemma ReceivedIs(r: Registry, c: Dev, uid: string, fs: set<Fingerprint>)
    requires WellFormed(r) && AllComparable(fs) && Prints(r) <= fs && c.fp in fs
    ensures c.fp !in Prints(r) ==> Received(r, c, uid) == r[uid := c.(uid := uid)]
    ensures forall u :: u in r && r[u].fp == c.fp ==> Received(r, c, uid) == r[u := Updated(r[u], c)]
  {
    hide Received, Matches, Fails, AllComparable, Compare;
    MatchesAre(r, c.fp, fs);
    ReceivedCases(r, c, uid);
    var ms := Matches(r, c.fp);
    if u :| u in r && r[u].fp == c.fp {
      assert ms == {u};
    } else {
      assert ms == {};
    }
    assert forall u :: u in r ==> r[u].fp in Prints(r);
  }

  lemma PutKeeps(r: Registry, u: string, d: Dev)
    requires WellFormed(r) && d.uid == u && (if u in r then d.fp == r[u].fp else d.fp !in Prints(r))
    ensures WellFormed(r[u := d]) && Prints(r[u := d]) == Prints(r) + {d.fp}
  {
    var g := r[u := d];
    forall f
      ensures f in Prints(g) <==> f in Prints(r) || f == d.fp
    {
      assert u in g && g[u].fp == d.fp;
      if v :| v in r && r[v].fp == f {
        assert g[v].fp == f;
      }
    }
  }

  lemma ReceivedKeeps(r: Registry, c: Dev, uid: string, fs: set<Fingerprint>)
    requires WellFormed(r) && AllComparable(fs) && Prints(r) <= fs && c.fp in fs && uid !in r
    ensures WellFormed(Received(r, c, uid)) && Prints(Received(r, c, uid)) == Prints(r) + {c.fp}
    ensures forall u :: u in r ==> u in Received(r, c, uid) && Received(r, c, uid)[u].fp == r[u].fp
    ensures forall u :: u in r && r[u].id.Some? ==> Received(r, c, uid)[u].id == r[u].id
    ensures forall u :: u in Received(r, c, uid) ==> u in r || u == uid
  {
    hide Received, AllComparable, Prints, WellFormed;
    ReceivedIs(r, c, uid, fs);
    if c.fp in Prints(r) {
      var u := Owner(r, c.fp);
      PutKeeps(r, u, Updated(r[u], c));
    } else {
      PutKeeps(r, uid, c.(uid := uid));
    }
  }

  // ---------- a scan ----------

  ghost predicate Drawn(r: Registry, uids: seq<string>) {
    && (forall i :: 0 <= i < |uids| ==> uids[i] !in r)
    && (forall i, j :: 0 <= i < j < |uids| ==> uids[i] != uids[j])
  }

  ghost function FirstPrints(cs: seq<Dev>, k: nat): set<Fingerprint>
    requires k <= |cs|
  {
    set j | 0 <= j < k :: cs[j].fp
  }

  /** `g` is well formed, has one device for each fingerprint of `r` and each listed one, and lost no
      device and no known id of `r`; new devices have drawn identifiers. */
  ghost predicate Grown(r: Registry, g: Registry, listed: set<Fingerprint>, drawn: seq<string>) {
    && WellFormed(g) && Prints(g) == Prints(r) + listed
    && (forall u :: u in r ==> u in g && g[u].fp == r[u].fp)
    && (forall u :: u in r && r[u].id.Some? ==> g[u].id == r[u].id)
    && (forall u :: u in g ==> u in r || u in drawn)
  }

  lemma GrownNext(r: Registry, f: Registry, listed: set<Fingerprint>, drawn: seq<string>, c: Dev, uid: string,
      fs: set<Fingerprint>)
    requires Grown(r, f, listed, drawn) && uid !in r && uid !in drawn
    requires AllComparable(fs) && Prints(r) + listed <= fs && c.fp in fs
    ensures Grown(r, Received(f, c, uid), listed + {c.fp}, drawn + [uid])
  {
    hide AllComparable, Received, Prints, WellFormed;
    ReceivedKeeps(f, c, uid, fs);
  }

  /** At every point of a scan the registry has grown so, and the next comparison does not fail. */
  lemma {:induction false} ScannedKeeps(r: Registry, cs: seq<Dev>, uids: seq<string>, k: nat, fs: set<Fingerprint>)
    requires WellFormed(r) && AllComparable(fs) && Prints(r) <= fs && FirstPrints(cs, |cs|) <= fs
    requires k <= |cs| == |uids| && Drawn(r, uids)
    ensures Grown(r, Scanned(r, cs, uids, k), FirstPrints(cs, k), uids[..k])
    ensures k < |cs| ==> !Fails(Scanned(r, cs, uids, k), cs[k].fp)
  {
    hide Received, Fails, WellFormed, Prints, AllComparable;
    assert FirstPrints(cs, 0) == {};
    hide FirstPrints;
    if k > 0 {
      ScannedKeeps(r, cs, uids, k - 1, fs);
      FirstPrintsNext(cs, k - 1);
      assert uids[..k] == uids[..k - 1] + [uids[k - 1]];
      GrownNext(r, Scanned(r, cs, uids, k - 1), FirstPrints(cs, k - 1), uids[..k - 1], cs[k - 1], uids[k - 1], fs);
    }
    if k < |cs| {
      FirstPrintsNext(cs, k);
      MatchesAre(Scanned(r, cs, uids, k), cs[k].fp, fs);
    }
  }

  lemma FirstPrintsNext(cs: seq<Dev>, k: nat)
    requires k < |cs|
    ensures FirstPrints(cs, k + 1) == FirstPrints(cs, k) + {cs[k].fp}
    ensures FirstPrints(cs, k) <= FirstPrints(cs, |cs|) && cs[k].fp in FirstPrints(cs, |cs|)
  {
  }

  /** The registry after `updateDeviceList`: well formed, and every device with a known id is still there. */
  lemma UpdateKeeps(r: Registry, cs: seq<Dev>, uids: seq<string>, fs: set<Fingerprint>)
    requires WellFormed(r) && AllComparable(fs) && Prints(r) <= fs && FirstPrints(cs, |cs|) <= fs
    requires |cs| == |uids| && Drawn(r, uids)
    ensures var g := Pruned(Scanned(r, cs, uids, |cs|));
      && WellFormed(g) && Prints(g) <= Prints(r) + FirstPrints(cs, |cs|)
      && forall u :: u in r && r[u].id.Some? && r[u].id != Some(PENDING) ==>
        u in g && g[u].fp == r[u].fp && g[u].id == r[u].id
  {
    hide AllComparable, Scanned;
    ScannedKeeps(r, cs, uids, |cs|, fs);
  }

  // ---------- runs ----------

  datatype Round = DisconnectRound | ScanRound(cs: seq<Dev>, uids: seq<string>)

  ghost function Next(r: Registry, round: Round): Registry
    requires round.ScanRound? ==> |round.cs| == |round.uids|
  {
    match round
    case DisconnectRound => DisconnectedAll(r)
    case ScanRound(cs, uids) => Pruned(Scanned(r, cs, uids, |cs|))
  }

  /** The rounds list comparable fingerprints and draw unused identifiers. */
  ghost predicate MayRun(r: Registry, rounds: seq<Round>, fs: set<Fingerprint>)
    decreases |rounds|
  {
    rounds == [] || (
      && (rounds[0].ScanRound? ==>
            |rounds[0].cs| == |rounds[0].uids| && Drawn(r, rounds[0].uids)
            && FirstPrints(rounds[0].cs, |rounds[0].cs|) <= fs)
      && MayRun(Next(r, rounds[0]), rounds[1..], fs))
  }

  /** Each candidate has an identifier to draw. */
  ghost predicate Sized(rounds: seq<Round>) {
    forall i :: 0 <= i < |rounds| && rounds[i].ScanRound? ==> |rounds[i].cs| == |rounds[i].uids|
  }

  ghost function Run(r: Registry, rounds: seq<Round>): Registry
    requires Sized(rounds)
    decreases |rounds|
  {
    if rounds == [] then r else Run(Next(r, rounds[0]), rounds[1..])
  }

  lemma {:induction false} RunsSized(r: Registry, rounds: seq<Round>, fs: set<Fingerprint>)
    requires MayRun(r, rounds, fs)
    ensures Sized(rounds)
    decreases |rounds|
  {
    if rounds != [] {
      RunsSized(Next(r, rounds[0]), rounds[1..], fs);
      assert forall i :: 0 < i < |rounds| ==> rounds[i] == rounds[1..][i - 1];
    }
  }

  /** Over any run of scans and disconnections the registry stays well formed, and a device whose id is
      known stays with its uid, its id and its fingerprint. */
  lemma {:induction false} RunKeeps(r: Registry, rounds: seq<Round>, fs: set<Fingerprint>)
    requires WellFormed(r) && AllComparable(fs) && Prints(r) <= fs && MayRun(r, rounds, fs) && Sized(rounds)
    ensures var g := Run(r, rounds);
      && WellFormed(g) && Prints(g) <= fs
      && forall u :: u in r && r[u].id.Some? && r[u].id != Some(PENDING) ==>
        u in g && g[u].fp == r[u].fp && g[u].id == r[u].id
    decreases |rounds|
  {
    hide WellFormed, AllComparable, Prints, Scanned, Pruned;
    if rounds != [] {
      match rounds[0] {
        case DisconnectRound => DisconnectedKeeps(r);
        case ScanRound(cs, uids) => UpdateKeeps(r, cs, uids, fs);
      }
      RunKeeps(Next(r, rounds[0]), rounds[1..], fs);
    }
  }

  // ---------- runs without a failing comparison ----------

  /** No device would match the fingerprint of another one. */
  ghost predicate Unmatched(r: Registry) {
    && (forall u :: u in r ==> r[u].uid == u)
    && forall u, v :: u in r && v in r && Compare(r[u].fp, r[v].fp) == Some(true) ==> u == v
  }

  lemma UnmatchedIsWellFormed(r: Registry)
    requires Unmatched(r)
    ensures WellFormed(r)
  {
    forall u, v | u in r && v in r && r[u].fp == r[v].fp
      ensures u == v
    {
      CompareYes(r[u].fp, r[v].fp);
    }
  }

  /** If the second fingerprint matches the first, and the test the other way round does not fail, that
      matches too. */
  lemma MatchesBack(a: Fingerprint, b: Fingerprint)
    requires Compare(b, a) == Some(true) && Compare(a, b).Some?
    ensures Compare(a, b) == Some(true) && a == b
  {
    CompareYes(b, a);
    if a.Keys != b.Keys {
      EmptyLacks(a, b);
    }
    assert a == b;
    CompareYes(a, b);
  }

  lemma EmptyLacks(a: Fingerprint, b: Fingerprint)
    requires b.Keys <= a.Keys && a.Keys - {""} <= b.Keys && a.Keys != b.Keys
    ensures Compare(a, b).None?
  {
    assert a.Keys == b.Keys + {""} && "" !in b.Keys;
    EmptyKeyFirst(b.Keys);
    assert IsLeast("", a.Keys);
    LeastUnique("", a.Keys);
    assert Sorted(a.Keys)[0] == "";
    assert FirstLacks(Sorted(a.Keys), a, b, 0);
    CompareFails(a, b);
  }

  /** A candidate whose comparisons do not fail matches one device at most. */
  lemma MatchesOne(r: Registry, fp: Fingerprint, u: string, v: string)
    requires Unmatched(r) && u in Matches(r, fp) && v in Matches(r, fp)
    ensures u == v
  {
    var a, b := r[u].fp, r[v].fp;
    CompareYes(a, fp);
    CompareYes(b, fp);
    CompareYes(a, b);
    CompareYes(b, a);
  }

  /** `g` has no two devices that match, and lost no device and no known id of `r`; new devices have
      drawn identifiers. */
  ghost predicate KeptIn(r: Registry, g: Registry, drawn: seq<string>) {
    && Unmatched(g) && (forall u :: u in g ==> u in r || u in drawn)
    && forall u :: u in r ==> u in g && g[u].fp == r[u].fp && (r[u].id.Some? ==> g[u].id == r[u].id)
  }

  lemma KeptNext(r: Registry, f: Registry, drawn: seq<string>, g: Registry, uid: string)
    requires KeptIn(r, f, drawn) && KeptIn(f, g, [uid])
    ensures KeptIn(r, g, drawn + [uid])
  {
    hide Unmatched;
  }

  /** Such a candidate leaves no two devices that match, and loses no device and no known id. */
  lemma ReceivedUnmatched(r: Registry, c: Dev, uid: string)
    requires Unmatched(r) && !Fails(r, c.fp) && uid !in r
    ensures KeptIn(r, Received(r, c, uid), [uid])
  {
    hide Received, Compare;
    ReceivedCases(r, c, uid);
    var ms, g := Matches(r, c.fp), Received(r, c, uid);
    if u :| u in ms {
      forall v | v in ms
        ensures v == u
      {
        MatchesOne(r, c.fp, u, v);
      }
      assert ms == {u};
    } else {
      assert ms == {};
      forall v | v in r
        ensures Compare(r[v].fp, c.fp) != Some(true) && Compare(c.fp, r[v].fp) != Some(true)
      {
        assert v !in ms;
        if Compare(c.fp, r[v].fp) == Some(true) {
          MatchesBack(r[v].fp, c.fp);
        }
      }
    }
  }

  /** At each point of a scan that does not fail. */
  lemma {:induction false} ScannedUnmatched(r: Registry, cs: seq<Dev>, uids: seq<string>, k: nat)
    requires Unmatched(r) && k <= |cs| == |uids| && Drawn(r, uids) && !Stuck(r, cs, uids, k)
    ensures KeptIn(r, Scanned(r, cs, uids, k), uids[..k])
  {
    hide Received, Unmatched, Fails, KeptIn;
    if k == 0 {
      NoneKept(r, uids);
    } else {
      ScannedUnmatched(r, cs, uids, k - 1);
      var f := Scanned(r, cs, uids, k - 1);
      assert uids[..k] == uids[..k - 1] + [uids[k - 1]];
      NotDrawnYet(r, f, uids, k - 1);
      ReceivedUnmatched(f, cs[k - 1], uids[k - 1]);
      KeptNext(r, f, uids[..k - 1], Received(f, cs[k - 1], uids[k - 1]), uids[k - 1]);
    }
  }

  lemma NoneKept(r: Registry, uids: seq<string>)
    requires Unmatched(r)
    ensures KeptIn(r, r, uids[..0])
  {
    hide Unmatched;
  }

  lemma NotDrawnYet(r: Registry, f: Registry, uids: seq<string>, k: nat)
    requires k < |uids| && KeptIn(r, f, uids[..k]) && Drawn(r, uids)
    ensures Unmatched(f) && uids[k] !in f
  {
    hide Unmatched;
  }

  /** The rounds draw unused identifiers, and no comparison fails. */
  ghost predicate RunsThrough(r: Registry, rounds: seq<Round>)
    requires Sized(rounds)
    decreases |rounds|
  {
    rounds == [] || (
      && (rounds[0].ScanRound? ==>
            Drawn(r, rounds[0].uids) && !Stuck(r, rounds[0].cs, rounds[0].uids, |rounds[0].cs|))
      && RunsThrough(Next(r, rounds[0]), rounds[1..]))
  }

  lemma DisconnectedUnmatched(r: Registry)
    requires Unmatched(r)
    ensures Unmatched(DisconnectedAll(r))
  {
    hide Compare;
    assert forall u :: u in r ==> DisconnectedAll(r)[u].fp == r[u].fp;
  }

  /** Over any run in which no comparison fails, whatever the fingerprints, there is one device for each
      fingerprint, and a device whose id is known stays with its uid, its id and its fingerprint. */
  lemma {:induction false} RunUnmatched(r: Registry, rounds: seq<Round>)
    requires Unmatched(r) && Sized(rounds) && RunsThrough(r, rounds)
    ensures var g := Run(r, rounds);
      && Unmatched(g) && WellFormed(g)
      && forall u :: u in r && r[u].id.Some? && r[u].id != Some(PENDING) ==>
        u in g && g[u].fp == r[u].fp && g[u].id == r[u].id
    decreases |rounds|
  {
    hide Compare, Scanned, WellFormed, Stuck;
    UnmatchedIsWellFormed(r);
    if rounds != [] {
      match rounds[0] {
        case DisconnectRound => DisconnectedUnmatched(r);
        case ScanRound(cs, uids) => ScannedUnmatched(r, cs, uids, |cs|);
      }
      RunUnmatched(Next(r, rounds[0]), rounds[1..]);
    }
  }

  /** In particular from the empty registry. */
  lemma RunFromEmpty(rounds: seq<Round>)
    requires Sized(rounds) && RunsThrough(map[], rounds)
    ensures WellFormed(Run(map[], rounds))
  {
    RunUnmatched(map[], rounds);
  }

  // ---------- who is connected after a scan ----------

  /** The bridges of the device with fingerprint `fp`, or none while there is no such device. */
  ghost function BridgesOf(r: Registry, fp: Fingerprint): map<string, Bridge> {
    if u :| u in r && r[u].fp == fp then r[u].bridges else map[]
  }

  ghost function Layered(base: map<string, Bridge>, cs: seq<Dev>, fp: Fingerprint, k: nat): map<string, Bridge>
    requires k <= |cs|
  {
    if k == 0 then base
    else Layered(base, cs, fp, k - 1) + if cs[k - 1].fp == fp then cs[k - 1].bridges else map[]
  }

  lemma BridgesAre(r: Registry, u: string)
    requires WellFormed(r) && u in r
    ensures BridgesOf(r, r[u].fp) == r[u].bridges
  {
  }

  lemma BridgesPut(r: Registry, u: string, d: Dev, fp: Fingerprint)
    requires WellFormed(r) && d.uid == u && (if u in r then d.fp == r[u].fp else d.fp !in Prints(r))
    ensures BridgesOf(r[u := d], fp) == if d.fp == fp then d.bridges else BridgesOf(r, fp)
  {
    var g := r[u := d];
    PutKeeps(r, u, d);
    BridgesAre(g, u);
    if d.fp != fp {
      if v :| v in r && r[v].fp == fp {
        BridgesAre(g, v);
        BridgesAre(r, v);
      }
    }
  }

  lemma ReceivedBridges(r: Registry, c: Dev, uid: string, fs: set<Fingerprint>, fp: Fingerprint)
    requires WellFormed(r) && AllComparable(fs) && Prints(r) <= fs && c.fp in fs && uid !in r
    ensures BridgesOf(Received(r, c, uid), fp) == BridgesOf(r, fp) + if c.fp == fp then c.bridges else map[]
  {
    hide Received, AllComparable, BridgesOf, Prints, WellFormed;
    ReceivedIs(r, c, uid, fs);
    if c.fp in Prints(r) {
      var u := Owner(r, c.fp);
      BridgesPut(r, u, Updated(r[u], c), fp);
    } else {
      BridgesPut(r, uid, c.(uid := uid), fp);
      NoBridges(r, c.fp);
    }
  }

  lemma Owner(r: Registry, fp: Fingerprint) returns (u: string)
    requires WellFormed(r) && fp in Prints(r)
    ensures u in r && r[u].fp == fp && r[u].uid == u && BridgesOf(r, fp) == r[u].bridges
  {
    u :| u in r && r[u].fp == fp;
  }

  lemma NoBridges(r: Registry, fp: Fingerprint)
    requires fp !in Prints(r)
    ensures BridgesOf(r, fp) == map[]
  {
  }

  /** Each device ends up with its former bridges overlaid by those of its candidates, in order. */
  lemma {:induction false} ScannedBridges(r: Registry, cs: seq<Dev>, uids: seq<string>, k: nat, fs: set<Fingerprint>,
      fp: Fingerprint)
    requires WellFormed(r) && AllComparable(fs) && Prints(r) <= fs && FirstPrints(cs, |cs|) <= fs
    requires k <= |cs| == |uids| && Drawn(r, uids)
    ensures BridgesOf(Scanned(r, cs, uids, k), fp) == Layered(BridgesOf(r, fp), cs, fp, k)
  {
    hide FirstPrints;
    hide AllComparable, Received, BridgesOf, WellFormed, Prints;
    if k > 0 {
      ScannedBridges(r, cs, uids, k - 1, fs, fp);
      ScannedKeeps(r, cs, uids, k - 1, fs);
      FirstPrintsNext(cs, k - 1);
      assert uids[k - 1] !in r && uids[k - 1] !in uids[..k - 1];
      ReceivedBridges(Scanned(r, cs, uids, k - 1), cs[k - 1], uids[k - 1], fs, fp);
    }
  }

  /** Candidate `j` is the last one of the fingerprint. */
  ghost predicate LastOf(cs: seq<Dev>, fp: Fingerprint, k: nat, j: int)
    requires k <= |cs|
  {
    0 <= j < k && cs[j].fp == fp && forall i :: j < i < k ==> cs[i].fp != fp
  }

  /** Candidate `j` is the first one of the fingerprint that knows the id. */
  ghost predicate FirstKnown(cs: seq<Dev>, fp: Fingerprint, k: nat, j: int)
    requires k <= |cs|
  {
    0 <= j < k && cs[j].fp == fp && cs[j].id.Some? && forall i :: 0 <= i < j && cs[i].fp == fp ==> cs[i].id.None?
  }

  /** What a device holds after a scan: the info of its last candidate; its former id, or else the first
      one that a candidate knows. A device that no candidate matches stays as it was, and one that the
      registry had keeps its identifier. */
  ghost predicate Tells(r: Registry, cs: seq<Dev>, k: nat, u: string, d: Dev)
    requires k <= |cs|
  {
    && d.uid == u
    && (forall j :: LastOf(cs, d.fp, k, j) ==> d.info == cs[j].info)
    && (u in r && r[u].id.Some? ==> d.id == r[u].id)
    && (u !in r || r[u].id.None? ==>
         && (forall j :: FirstKnown(cs, d.fp, k, j) ==> d.id == cs[j].id)
         && (d.id.Some? ==> exists j :: FirstKnown(cs, d.fp, k, j)))
    && ((forall j :: 0 <= j < k ==> cs[j].fp != d.fp) ==> u in r && d == r[u])
  }

  /** Candidate number `k` is another device's: nothing changes. */
  lemma TellsStill(r: Registry, cs: seq<Dev>, k: nat, n: nat, u: string, d: Dev)
    requires k < |cs| && n == k + 1 && Tells(r, cs, k, u, d) && cs[k].fp != d.fp
    ensures Tells(r, cs, n, u, d)
  {
    hide LastOf, FirstKnown;
    SameOnes(cs, d.fp, k, n);
  }

  lemma SameOnes(cs: seq<Dev>, fp: Fingerprint, k: nat, n: nat)
    requires k < |cs| && n == k + 1 && cs[k].fp != fp
    ensures forall j :: LastOf(cs, fp, n, j) ==> LastOf(cs, fp, k, j)
    ensures forall j :: FirstKnown(cs, fp, n, j) <==> FirstKnown(cs, fp, k, j)
  {
  }

  /** It is the device's own. */
  lemma TellsNext(r: Registry, cs: seq<Dev>, k: nat, n: nat, u: string, d: Dev)
    requires k < |cs| && n == k + 1 && Tells(r, cs, k, u, d) && cs[k].fp == d.fp
    ensures Tells(r, cs, n, u, Updated(d, cs[k]))
  {
    assert forall j :: LastOf(cs, d.fp, n, j) ==> j == k;
    if u !in r || r[u].id.None? {
      if d.id.Some? {
        var j :| FirstKnown(cs, d.fp, k, j);
        assert FirstKnown(cs, d.fp, n, j);
        assert forall i :: FirstKnown(cs, d.fp, n, i) ==> i == j;
      } else {
        forall j | FirstKnown(cs, d.fp, n, j)
          ensures j == k
        {
          assert j < k ==> FirstKnown(cs, d.fp, k, j);
        }
        if cs[k].id.Some? {
          NoneKnown(cs, d.fp, k, k);
          assert FirstKnown(cs, d.fp, n, k);
        }
      }
    }
  }

  lemma {:induction false} NoneKnown(cs: seq<Dev>, fp: Fingerprint, k: nat, i: nat)
    requires i <= k < |cs| && forall j :: !FirstKnown(cs, fp, k, j)
    ensures forall j :: 0 <= j < i && cs[j].fp == fp ==> cs[j].id.None?
  {
    if i > 0 {
      NoneKnown(cs, fp, k, i - 1);
      assert !FirstKnown(cs, fp, k, i - 1);
    }
  }

  /** A new device: no earlier candidate was its own. */
  lemma TellsNew(r: Registry, cs: seq<Dev>, k: nat, n: nat, uid: string)
    requires k < |cs| && n == k + 1 && uid !in r && forall j :: 0 <= j < k ==> cs[j].fp != cs[k].fp
    ensures Tells(r, cs, n, uid, cs[k].(uid := uid))
  {
    assert forall j :: LastOf(cs, cs[k].fp, n, j) ==> j == k;
    assert forall j :: FirstKnown(cs, cs[k].fp, n, j) ==> j == k;
    assert cs[k].id.Some? ==> FirstKnown(cs, cs[k].fp, n, k);
  }

  lemma TellsNone(r: Registry, cs: seq<Dev>, uids: seq<string>)
    requires WellFormed(r) && |cs| == |uids|
    ensures Scanned(r, cs, uids, 0) == r && forall u :: u in r ==> Tells(r, cs, 0, u, r[u])
  {
  }

  lemma {:induction false} ScannedTells(r: Registry, cs: seq<Dev>, uids: seq<string>, k: nat, fs: set<Fingerprint>)
    requires WellFormed(r) && AllComparable(fs) && Prints(r) <= fs && FirstPrints(cs, |cs|) <= fs
    requires k <= |cs| == |uids| && Drawn(r, uids)
    ensures forall u :: u in Scanned(r, cs, uids, k) ==> Tells(r, cs, k, u, Scanned(r, cs, uids, k)[u])
  {
    hide *;
    if k == 0 {
      TellsNone(r, cs, uids);
    } else {
      var f, g, c, uid := Scanned(r, cs, uids, k - 1), Scanned(r, cs, uids, k), cs[k - 1], uids[k - 1];
      ScannedTells(r, cs, uids, k - 1, fs);
      ScannedOne(r, cs, uids, k, fs);
      forall u | u in g
        ensures Tells(r, cs, k, u, g[u])
      {
        TellsAt(r, f, g, cs, k - 1, uid, u);
      }
    }
  }

  ghost predicate Present(r: Registry, fp: Fingerprint) {
    exists u :: u in r && r[u].fp == fp
  }

  /** One candidate is new to the registry, or belongs to one device. */
  ghost predicate OneReceived(f: Registry, g: Registry, c: Dev, uid: string) {
    || (g == f[uid := c.(uid := uid)] && forall u :: u in f ==> f[u].fp != c.fp)
    || exists v :: v in f && f[v].fp == c.fp && g == f[v := Updated(f[v], c)] &&
         forall u :: u in f && u != v ==> f[u].fp != c.fp
  }

  lemma ScannedOne(r: Registry, cs: seq<Dev>, uids: seq<string>, k: nat, fs: set<Fingerprint>)
    requires WellFormed(r) && AllComparable(fs) && Prints(r) <= fs && FirstPrints(cs, |cs|) <= fs
    requires 0 < k <= |cs| == |uids| && Drawn(r, uids)
    ensures OneReceived(Scanned(r, cs, uids, k - 1), Scanned(r, cs, uids, k), cs[k - 1], uids[k - 1])
    ensures uids[k - 1] !in Scanned(r, cs, uids, k - 1) && uids[k - 1] !in r
    ensures forall j :: 0 <= j < k - 1 ==> Present(Scanned(r, cs, uids, k - 1), cs[j].fp)
  {
    hide AllComparable, Received, OneReceived, FirstPrints, Prints, WellFormed, Present;
    var f, c, uid := Scanned(r, cs, uids, k - 1), cs[k - 1], uids[k - 1];
    ScannedKeeps(r, cs, uids, k - 1, fs);
    FirstPrintsNext(cs, k - 1);
    assert uid !in uids[..k - 1];
    ReceivedOne(f, c, uid, fs);
    forall j | 0 <= j < k - 1
      ensures Present(f, cs[j].fp)
    {
      FirstPresent(f, cs, k - 1, j);
    }
  }

  lemma FirstPresent(f: Registry, cs: seq<Dev>, k: nat, j: nat)
    requires j < k <= |cs| && FirstPrints(cs, k) <= Prints(f)
    ensures Present(f, cs[j].fp)
  {
    assert cs[j].fp in FirstPrints(cs, k) && cs[j].fp in Prints(f);
  }

  lemma ReceivedOne(f: Registry, c: Dev, uid: string, fs: set<Fingerprint>)
    requires WellFormed(f) && AllComparable(fs) && Prints(f) <= fs && c.fp in fs
    ensures OneReceived(f, Received(f, c, uid), c, uid)
  {
    hide AllComparable, Received;
    ReceivedIs(f, c, uid, fs);
    if c.fp in Prints(f) {
      var v := Owner(f, c.fp);
    } else {
      assert forall u :: u in f ==> f[u].fp in Prints(f);
    }
  }

  lemma TellsAt(r: Registry, f: Registry, g: Registry, cs: seq<Dev>, k: nat, uid: string, u: string)
    requires k < |cs| && OneReceived(f, g, cs[k], uid) && uid !in f && uid !in r && u in g
    requires forall v :: v in f ==> Tells(r, cs, k, v, f[v])
    requires forall j :: 0 <= j < k ==> Present(f, cs[j].fp)
    ensures Tells(r, cs, k + 1, u, g[u])
  {
    hide Tells;
    if u !in f {
      TellsNew(r, cs, k, k + 1, uid);
    } else if f[u].fp == cs[k].fp {
      TellsNext(r, cs, k, k + 1, u, f[u]);
    } else {
      TellsStill(r, cs, k, k + 1, u, f[u]);
    }
  }

  /** Candidate `j` is the last one of the fingerprint to list the bridge `name`, and has it up. */
  ghost predicate LastUp(cs: seq<Dev>, fp: Fingerprint, k: nat, j: int, name: string)
    requires k <= |cs|
  {
    && 0 <= j < k && cs[j].fp == fp && name in cs[j].bridges && cs[j].bridges[name].up
    && forall i :: j < i < k && cs[i].fp == fp ==> name !in cs[i].bridges
  }

  lemma {:induction false} LayeredUp(base: map<string, Bridge>, cs: seq<Dev>, fp: Fingerprint, k: nat, name: string)
    requires k <= |cs| && forall n :: n in base ==> !base[n].up
    ensures name in Layered(base, cs, fp, k) && Layered(base, cs, fp, k)[name].up <==>
      exists j :: LastUp(cs, fp, k, j, name)
  {
    if k > 0 {
      var p: nat := k - 1;
      LayeredUp(base, cs, fp, p, name);
      if cs[k - 1].fp == fp && name in cs[k - 1].bridges {
        assert LastUp(cs, fp, k, k - 1, name) <==> cs[k - 1].bridges[name].up;
        assert forall j :: LastUp(cs, fp, k, j, name) ==> j == k - 1;
      } else {
        var before, after := Layered(base, cs, fp, k - 1), Layered(base, cs, fp, k);
        assert name in after <==> name in before;
        assert name in before ==> after[name] == before[name];
        if j :| LastUp(cs, fp, k, j, name) {
          assert j != p && LastUp(cs, fp, p, j, name);
        }
        if j :| LastUp(cs, fp, p, j, name) {
          assert LastUp(cs, fp, k, j, name);
        }
      }
    }
  }

  function DisconnectedAll(r: Registry): Registry {
    map u | u in r :: Disconnected(r[u])
  }

  lemma DisconnectedKeeps(r: Registry)
    requires WellFormed(r)
    ensures var s := DisconnectedAll(r);
      && WellFormed(s) && s.Keys == r.Keys && Prints(s) == Prints(r)
      && forall f, n :: n in BridgesOf(s, f) ==> !BridgesOf(s, f)[n].up
  {
    var s := DisconnectedAll(r);
    assert forall v :: v in r ==> s[v].fp == r[v].fp;
    assert forall v, n :: v in s && n in s[v].bridges ==> !s[v].bridges[n].up;
  }

  lemma ScannedConnected(s: Registry, cs: seq<Dev>, uids: seq<string>, fs: set<Fingerprint>, u: string)
    requires WellFormed(s) && AllComparable(fs) && Prints(s) <= fs && FirstPrints(cs, |cs|) <= fs
    requires |cs| == |uids| && Drawn(s, uids) && u in Scanned(s, cs, uids, |cs|)
    requires forall f, n :: n in BridgesOf(s, f) ==> !BridgesOf(s, f)[n].up
    ensures var d := Scanned(s, cs, uids, |cs|)[u];
      forall n :: n in d.bridges && d.bridges[n].up <==> exists j :: LastUp(cs, d.fp, |cs|, j, n)
  {
    hide LastUp;
    hide Scanned, AllComparable, Prints, FirstPrints, BridgesOf, WellFormed, Drawn;
    var g := Scanned(s, cs, uids, |cs|);
    var fp := g[u].fp;
    ScannedBridges(s, cs, uids, |cs|, fs, fp);
    ScannedKeeps(s, cs, uids, |cs|, fs);
    BridgesAre(g, u);
    forall n
      ensures n in g[u].bridges && g[u].bridges[n].up <==> exists j :: LastUp(cs, fp, |cs|, j, n)
    {
      LayeredUp(BridgesOf(s, fp), cs, fp, |cs|, n);
    }
  }

  /** After everything was disconnected and a scan was taken in, a device that is still registered is
      connected exactly when, for some bridge name, the last candidate of its fingerprint that lists
      the name has that bridge up. */
  lemma ConnectedAfterScan(r: Registry, cs: seq<Dev>, uids: seq<string>, fs: set<Fingerprint>, u: string)
    requires WellFormed(r) && AllComparable(fs) && Prints(r) <= fs && FirstPrints(cs, |cs|) <= fs
    requires |cs| == |uids| && Drawn(r, uids)
    requires u in Pruned(Scanned(DisconnectedAll(r), cs, uids, |cs|))
    ensures var d := Pruned(Scanned(DisconnectedAll(r), cs, uids, |cs|))[u];
      Connected(d) <==> exists j, n :: LastUp(cs, d.fp, |cs|, j, n)
  {
    hide Scanned, AllComparable, Prints, FirstPrints, BridgesOf, WellFormed, Kept, LastUp;
    var s := DisconnectedAll(r);
    DisconnectedKeeps(r);
    assert Drawn(s, uids);
    ScannedConnected(s, cs, uids, fs, u);
    var d := Scanned(s, cs, uids, |cs|)[u];
    assert Pruned(Scanned(s, cs, uids, |cs|))[u] == d;
    if j, n :| LastUp(cs, d.fp, |cs|, j, n) {
      assert n in d.bridges && d.bridges[n].up;
    }
  }

  /** Candidates of one device use distinct bridge names. */
  ghost predicate DistinctBridges(cs: seq<Dev>) {
    forall i, j :: 0 <= i < j < |cs| && cs[i].fp == cs[j].fp ==> cs[i].bridges.Keys !! cs[j].bridges.Keys
  }

  /** Then a registered device is connected exactly when some candidate of its fingerprint is. */
  lemma ConnectedIffListed(r: Registry, cs: seq<Dev>, uids: seq<string>, fs: set<Fingerprint>, u: string)
    requires WellFormed(r) && AllComparable(fs) && Prints(r) <= fs && FirstPrints(cs, |cs|) <= fs
    requires |cs| == |uids| && Drawn(r, uids) && DistinctBridges(cs)
    requires u in Pruned(Scanned(DisconnectedAll(r), cs, uids, |cs|))
    ensures var d := Pruned(Scanned(DisconnectedAll(r), cs, uids, |cs|))[u];
      Connected(d) <==> exists j :: 0 <= j < |cs| && cs[j].fp == d.fp && Connected(cs[j])
  {
    hide AllComparable, Scanned, Prints, FirstPrints, Pruned;
    ConnectedAfterScan(r, cs, uids, fs, u);
    var fp := Pruned(Scanned(DisconnectedAll(r), cs, uids, |cs|))[u].fp;
    if j :| 0 <= j < |cs| && cs[j].fp == fp && Connected(cs[j]) {
      var n :| n in cs[j].bridges && cs[j].bridges[n].up;
      assert LastUp(cs, fp, |cs|, j, n);
    }
    if j, n :| LastUp(cs, fp, |cs|, j, n) {
      assert Connected(cs[j]);
    }
  }

  /** The search by address always finds the device itself: a network bridge never keeps a pending device. */
  lemma NetworkIsFound(r: Registry, u: string, n: string)
    requires u in r && n in r[u].bridges && r[u].bridges[n].network
    ensures Found(r, r[u].bridges[n])
  {
    assert Serves(r[u].bridges[n], r[u].bridges[n].ip, r[u].bridges[n].port, false);
  }

  // ---------- the program ----------

  class Device {
    var uid: string
    var id: Option<string>
    var uidfp: Fingerprint
    var bridges: map<string, Bridge>
    var info: Info

    ghost function View(): Dev
      reads this
    {
      Dev(uid, id, uidfp, bridges, info)
    }

    constructor (d: Dev)
      ensures View() == d
    {
      uid, id, uidfp, bridges, info := d.uid, d.id, d.fp, d.bridges, d.info;
    }

    method IsConnected() returns (up: bool)
      ensures up == Connected(View())
    {
      up := false;
      var rest := bridges.Keys;
      while rest != {}
        invariant rest <= bridges.Keys
        invariant up <==> exists n :: n in bridges && n !in rest && bridges[n].up
      {
        var n :| n in rest;
        up := up || bridges[n].up;
        rest := rest - {n};
      }
    }

    method Disconnect()
      modifies this
      ensures View() == Disconnected(old(View()))
      ensures uid == old(uid) && id == old(id) && uidfp == old(uidfp) && info == old(info).(connected := false)
      ensures bridges.Keys == old(bridges).Keys
      ensures forall n :: n in bridges ==> bridges[n] == old(bridges)[n].(up := false)
    {
      info := info.(connected := false);
      var rest := bridges.Keys;
      while rest != {}
        invariant rest <= bridges.Keys == old(bridges).Keys
        invariant uid == old(uid) && id == old(id) && uidfp == old(uidfp) && info == old(info).(connected := false)
        invariant forall n :: n in bridges ==>
          bridges[n] == if n in rest then old(bridges)[n] else old(bridges)[n].(up := false)
      {
        var n :| n in rest;
        bridges := bridges[n := bridges[n].(up := false)];
        rest := rest - {n};
      }
    }

    method Update(fresh_: Device)
      requires fresh_ != this
      modifies this
      ensures View() == Updated(old(View()), fresh_.View())
      ensures uid == old(uid) && uidfp == old(uidfp) && info == fresh_.info
      ensures id == if old(id).Some? then old(id) else fresh_.id
      ensures bridges.Keys == old(bridges).Keys + fresh_.bridges.Keys
      ensures forall n :: n in bridges ==>
        bridges[n] == if n in fresh_.bridges then fresh_.bridges[n] else old(bridges)[n]
    {
      if id.None? {
        id := fresh_.id;
      }
      var rest := fresh_.bridges.Keys;
      while rest != {}
        invariant rest <= fresh_.bridges.Keys
        invariant uid == old(uid) && uidfp == old(uidfp) && id == (if old(id).None? then fresh_.id else old(id))
        invariant fresh_.View() == old(fresh_.View())
        invariant bridges == old(bridges) + (fresh_.bridges - rest)
      {
        var n :| n in rest;
        assert fresh_.bridges - (rest - {n}) == (fresh_.bridges - rest)[n := fresh_.bridges[n]];
        bridges := bridges[n := fresh_.bridges[n]];
        rest := rest - {n};
      }
      assert fresh_.bridges - {} == fresh_.bridges;
      info := fresh_.info;
    }
  }

  ghost function Views(ds: seq<Device>): (vs: seq<Dev>)
    reads ds
    ensures |vs| == |ds| && forall i :: 0 <= i < |ds| ==> vs[i] == ds[i].View()
  {
    if ds == [] then [] else Views(ds[..|ds| - 1]) + [ds[|ds| - 1].View()]
  }

  ghost function CountConnected(cs: seq<Dev>, k: nat): nat
    requires k <= |cs|
  {
    if k == 0 then 0 else CountConnected(cs, k - 1) + if Connected(cs[k - 1]) then 1 else 0
  }

  class DeviceManager {
    var devices: map<string, Device>

    ghost function View(): Registry
      reads this, devices.Values
    {
      map u | u in devices :: devices[u].View()
    }

    /** Every device is stored under its own uid. */
    ghost predicate Valid()
      reads this, devices.Values
    {
      forall u :: u in devices ==> devices[u].uid == u
    }

    constructor ()
      ensures Valid() && View() == map[]
    {
      devices := map[];
    }

    method DisconnectAll()
      requires Valid()
      modifies devices.Values
      ensures Valid() && View() == DisconnectedAll(old(View()))
    {
      var rest := devices.Keys;
      while rest != {}
        invariant rest <= devices.Keys && Valid()
        invariant forall u :: u in devices ==>
          devices[u].View() == if u in rest then old(devices[u].View()) else Disconnected(old(devices[u].View()))
      {
        var u :| u in rest;
        devices[u].Disconnect();
        rest := rest - {u};
      }
    }

    /** The devices that match; none if a comparison fails. */
    method SearchDeviceByUidFP(fp: Fingerprint) returns (r: Option<seq<Device>>)
      requires Valid()
      ensures r.None? <==> Fails(View(), fp)
      ensures r.Some? ==> |r.value| == |Matches(View(), fp)|
      ensures r.Some? ==> forall i :: 0 <= i < |r.value| ==>
        r.value[i].uid in Matches(View(), fp) && devices[r.value[i].uid] == r.value[i]
      ensures r.Some? ==> forall i, j :: 0 <= i < j < |r.value| ==> r.value[i] != r.value[j]
    {
      hide Matches, Fails;
      var prints := map u | u in devices :: devices[u].uidfp;
      PrintsAgree(View(), prints, fp);
      var us := SearchPrints(prints, fp);
      if us.None? {
        return None;
      }
      var devs := [];
      for i := 0 to |us.value|
        invariant |devs| == i && forall j :: 0 <= j < i ==> devs[j] == devices[us.value[j]]
      {
        devs := devs + [devices[us.value[i]]];
      }
      return Some(devs);
    }

    method AddDevice(d: Device, uid: string)
      requires Valid() && uid !in devices && d !in devices.Values
      modifies this, d`uid
      ensures Valid() && devices == old(devices)[uid := d]
      ensures View() == old(View())[uid := old(d.View()).(uid := uid)]
    {
      d.uid := uid;
      devices := devices[uid := d];
    }

    /** One turn of the loop over the candidates. */
    method Receive(d: Device, uid: string) returns (ok: bool)
      requires Valid() && uid !in devices && d !in devices.Values
      modifies this, devices.Values, d`uid
      ensures ok <==> !Fails(old(View()), old(d.View().fp))
      ensures Valid() && View() == if ok then Received(old(View()), old(d.View()), uid) else old(View())
      ensures devices == old(devices) || devices == old(devices)[uid := d]
      ensures Connected(d.View()) == old(Connected(d.View()))
    {
      hide Compare, Matches, Fails, Received;
      ghost var r, c := View(), d.View();
      ReceivedCases(r, c, uid);
      var found := SearchDeviceByUidFP(d.uidfp);
      if found.None? {
        return false;
      }
      var devs := found.value;
      if |devs| == 1 {
        UpdateKnown(devs[0], d);
      } else {
        AddDevice(d, uid);
      }
      return true;
    }

    /** Whether a device has that address, on a bridge that is up if `up` asks so. */
    method GetDeviceByIP(ip: string, port: Option<int>, up: bool) returns (found: bool)
      ensures found <==> FoundByIP(View(), ip, port, up)
      ensures found <==>
        exists u, n ::
          && u in View() && n in View()[u].bridges
          && var b := View()[u].bridges[n];
             b.network && b.ip == ip && (port.None? || b.port == port) && (b.up || !up)
    {
      var rest := devices.Keys;
      while rest != {}
        invariant forall u, n :: u in devices && u !in rest && n in devices[u].bridges ==>
          !Serves(devices[u].bridges[n], ip, port, up)
      {
        var u :| u in rest;
        var d := devices[u];
        var names := d.bridges.Keys;
        while names != {}
          invariant names <= d.bridges.Keys
          invariant forall n :: n in d.bridges && n !in names ==> !Serves(d.bridges[n], ip, port, up)
        {
          var n :| n in names;
          if Serves(d.bridges[n], ip, port, up) {
            assert Serves(View()[u].bridges[n], ip, port, up);
            return true;
          }
          names := names - {n};
        }
        rest := rest - {u};
      }
      return false;
    }

    method GetDeviceByID(id: string) returns (found: bool)
      ensures found <==> FoundByID(View(), id)
    {
      var rest := devices.Keys;
      while rest != {}
        invariant rest <= devices.Keys
        invariant forall u :: u in devices && u !in rest ==> devices[u].id != Some(id)
      {
        var u :| u in rest;
        if devices[u].id == Some(id) {
          assert View()[u].id == Some(id);
          return true;
        }
        rest := rest - {u};
      }
      return false;
    }

    /** Looks for a bridge of a pending device under which no device is found. */
    method KeepPending(d: Device) returns (keep: bool)
      ensures keep <==> exists n :: n in d.bridges && !Found(View(), d.bridges[n])
    {
      keep := false;
      var rest := d.bridges.Keys;
      while rest != {}
        invariant rest <= d.bridges.Keys
        invariant keep <==> exists n :: n in d.bridges && n !in rest && !Found(View(), d.bridges[n])
      {
        var n :| n in rest;
        var b := d.bridges[n];
        var found;
        if b.network {
          found := GetDeviceByIP(b.ip, b.port, false);
        } else {
          found := GetDeviceByID(b.deviceID);
        }
        keep := keep || !found;
        rest := rest - {n};
      }
    }

    method Keep(d: Device) returns (keep: bool)
      ensures keep <==> Kept(View(), d.View())
      ensures d.id != Some("<pending...>") ==> keep
    {
      keep := true;
      if d.id == Some(PENDING) {
        keep := KeepPending(d);
      }
    }

    method Prune()
      requires Valid()
      modifies this
      ensures Valid() && View() == Pruned(old(View()))
      ensures devices.Values <= old(devices.Values)
    {
      hide Kept;
      ghost var r := View();
      ghost var kept := set u | u in r && Kept(r, r[u]);
      var devs := map[];
      var rest := devices.Keys;
      assert kept - rest == {};
      while rest != {}
        invariant rest <= devices.Keys && View() == r && devices == old(devices)
        invariant devs.Keys == kept - rest
        invariant forall u :: u in devs ==> devs[u] == devices[u]
      {
        var u :| u in rest;
        var d := devices[u];
        var keep := Keep(d);
        assert r[u] == d.View() && (keep <==> u in kept);
        if keep {
          devs := devs[d.uid := d];
        }
        rest := rest - {u};
      }
      devices := devs;
      assert View() == Pruned(r);
    }

    /** The candidates from place `i` on are not registered yet, nor are their drawn identifiers. */
    lemma WaitStart(cands: seq<Device>, cs: seq<Dev>, uids: seq<string>)
      requires Valid() && |cands| == |uids| && Drawn(View(), uids) && cs == Views(cands)
      requires forall i :: 0 <= i < |cands| ==> cands[i] !in devices.Values
      ensures Waiting(cands, cs, uids, 0)
    {
    }

    ghost predicate Waiting(cands: seq<Device>, cs: seq<Dev>, uids: seq<string>, i: nat)
      reads this, cands
    {
      && |cands| == |cs| == |uids|
      && (forall j :: i <= j < |cands| ==> cands[j].View() == cs[j])
      && (forall j :: i <= j < |cands| ==> cands[j] !in devices.Values)
      && (forall j :: i <= j < |uids| ==> uids[j] !in devices)
    }

    method ReceiveNext(cands: seq<Device>, ghost cs: seq<Dev>, uids: seq<string>, i: nat) returns (ok: bool, up: bool)
      requires Valid() && i < |cands| && Waiting(cands, cs, uids, i)
      requires forall j, k :: 0 <= j < k < |cands| ==> cands[j] != cands[k] && uids[j] != uids[k]
      modifies this, devices.Values, cands[i]
      ensures ok <==> !Fails(old(View()), cs[i].fp)
      ensures Valid() && View() == if ok then Received(old(View()), cs[i], uids[i]) else old(View())
      ensures ok ==> Waiting(cands, cs, uids, i + 1) && up == Connected(cs[i])
      ensures devices.Values <= old(devices.Values) + {cands[i]}
    {
      hide Received, Fails;
      up := false;
      ok := Receive(cands[i], uids[i]);
      if ok {
        up := cands[i].IsConnected();
      }
    }

    /** Takes in the result of a scan; the count of connected candidates, or none if a comparison fails. */
    method UpdateDeviceList(cands: seq<Device>, uids: seq<string>) returns (active: Option<nat>)
      requires Valid() && |cands| == |uids| && Drawn(View(), uids)
      requires forall i :: 0 <= i < |cands| ==> cands[i] !in devices.Values
      requires forall i, j :: 0 <= i < j < |cands| ==> cands[i] != cands[j]
      modifies this, devices.Values, set c | c in cands
      ensures Valid()
      ensures active.Some? ==> View() == old(Pruned(Scanned(View(), Views(cands), uids, |cands|)))
      ensures active.Some? ==> active.value == old(CountConnected(Views(cands), |cands|))
      ensures active.None? <==> old(Stuck(View(), Views(cands), uids, |cands|))
    {
      hide Received, Fails, Pruned, Scanned, Views, CountConnected, Stuck, Waiting;
      ghost var r, cs := View(), Views(cands);
      ScanStart(r, cs, uids);
      WaitStart(cands, cs, uids);
      var count := 0;
      for i := 0 to |cands|
        invariant Valid() && View() == Scanned(r, cs, uids, i) && count == CountConnected(cs, i)
        invariant devices.Values <= old(devices.Values) + set c | c in cands
        invariant Waiting(cands, cs, uids, i) && !Stuck(r, cs, uids, i)
      {
        ScanNext(r, cs, uids, i);
        var ok, up := ReceiveNext(cands, cs, uids, i);
        if !ok {
          return None;
        }
        if up {
          count := count + 1;
        }
      }
      Prune();
      return Some(count);
    }

    method UpdateKnown(known: Device, d: Device)
      requires Valid() && known.uid in devices && devices[known.uid] == known && d !in devices.Values
      modifies known
      ensures Valid() && View() == old(View()[known.uid := Updated(known.View(), d.View())])
    {
      ghost var r := View();
      known.Update(d);
      assert View() == r[known.uid := known.View()];
    }
  }

  lemma ReceivedCases(r: Registry, c: Dev, uid: string)
    ensures Matches(r, c.fp) <= r.Keys
    ensures |Matches(r, c.fp)| == 1 ==>
      forall u :: u in Matches(r, c.fp) ==> Received(r, c, uid) == r[u := Updated(r[u], c)]
    ensures |Matches(r, c.fp)| != 1 ==> Received(r, c, uid) == r[uid := c.(uid := uid)]
  {
    if |Matches(r, c.fp)| == 1 {
      forall u | u in Matches(r, c.fp)
        ensures Received(r, c, uid) == r[u := Updated(r[u], c)]
      {
        OneElement(Matches(r, c.fp), u);
      }
    }
  }

  /** The search, on the fingerprints alone: the keys under which a matching one is found, each once. */
  method SearchPrints(prints: map<string, Fingerprint>, fp: Fingerprint) returns (r: Option<seq<string>>)
    ensures r.None? <==> exists u :: u in prints && Compare(prints[u], fp).None?
    ensures r.Some? ==>
      |r.value| == |Matching(prints, fp)| && forall i :: 0 <= i < |r.value| ==> r.value[i] in Matching(prints, fp)
    ensures r.Some? ==> forall i, j :: 0 <= i < j < |r.value| ==> r.value[i] != r.value[j]
  {
    hide Compare, Matching, Searched;
    var rest, us := prints.Keys, [];
    SearchStart(prints, fp);
    while rest != {}
      invariant rest <= prints.Keys && Searched(prints, fp, rest, us)
    {
      var u :| u in rest;
      var same := EqualsUIDFP(prints[u], fp);
      if same.None? {
        return None;
      }
      SearchNext(prints, fp, rest, us, u);
      rest := rest - {u};
      if same.value {
        us := us + [u];
      }
    }
    SearchEnd(prints, fp, us);
    return Some(us);
  }

  ghost function Matching(prints: map<string, Fingerprint>, fp: Fingerprint): set<string> {
    set u | u in prints && Compare(prints[u], fp) == Some(true)
  }

  /** The fingerprints outside `rest` have been compared, and `us` lists the matching ones, each once. */
  ghost predicate Searched(prints: map<string, Fingerprint>, fp: Fingerprint, rest: set<string>, us: seq<string>) {
    && (forall u :: u in prints && u !in rest ==> Compare(prints[u], fp).Some?)
    && |us| == |Matching(prints, fp) - rest|
    && (forall i :: 0 <= i < |us| ==> us[i] in Matching(prints, fp) && us[i] !in rest)
    && forall i, j :: 0 <= i < j < |us| ==> us[i] != us[j]
  }

  lemma SearchStart(prints: map<string, Fingerprint>, fp: Fingerprint)
    ensures Searched(prints, fp, prints.Keys, [])
  {
    hide Compare;
    assert Matching(prints, fp) - prints.Keys == {};
  }

  lemma InMatching(prints: map<string, Fingerprint>, fp: Fingerprint, u: string)
    requires u in prints
    ensures u in Matching(prints, fp) <==> Compare(prints[u], fp) == Some(true)
  {
    hide Compare;
  }

  lemma SearchNext(prints: map<string, Fingerprint>, fp: Fingerprint, rest: set<string>, us: seq<string>, u: string)
    requires Searched(prints, fp, rest, us) && u in prints && u in rest && Compare(prints[u], fp).Some?
    ensures Searched(prints, fp, rest - {u}, if Compare(prints[u], fp) == Some(true) then us + [u] else us)
  {
    hide Compare, Matching;
    var ms := Matching(prints, fp);
    InMatching(prints, fp, u);
    assert ms - (rest - {u}) == if u in ms then (ms - rest) + {u} else ms - rest;
  }

  lemma SearchEnd(prints: map<string, Fingerprint>, fp: Fingerprint, us: seq<string>)
    requires Searched(prints, fp, {}, us)
    ensures forall u :: u in prints ==> Compare(prints[u], fp).Some?
    ensures |us| == |Matching(prints, fp)| && forall i :: 0 <= i < |us| ==> us[i] in Matching(prints, fp)
    ensures forall i, j :: 0 <= i < j < |us| ==> us[i] != us[j]
  {
    assert Matching(prints, fp) - {} == Matching(prints, fp);
  }

  lemma ScanStart(r: Registry, cs: seq<Dev>, uids: seq<string>)
    requires |cs| == |uids|
    ensures Scanned(r, cs, uids, 0) == r && CountConnected(cs, 0) == 0 && !Stuck(r, cs, uids, 0)
  {
  }

  lemma ScanNext(r: Registry, cs: seq<Dev>, uids: seq<string>, i: nat)
    requires i < |cs| == |uids| && !Stuck(r, cs, uids, i)
    ensures var f := Scanned(r, cs, uids, i);
      && Scanned(r, cs, uids, i + 1) == Received(f, cs[i], uids[i])
      && CountConnected(cs, i + 1) == CountConnected(cs, i) + (if Connected(cs[i]) then 1 else 0)
      && (Stuck(r, cs, uids, i + 1) <==> Fails(f, cs[i].fp))
      && (Fails(f, cs[i].fp) ==> Stuck(r, cs, uids, |cs|))
  {
    hide Received, Fails, Connected;
  }

  lemma PrintsAgree(r: Registry, prints: map<string, Fingerprint>, fp: Fingerprint)
    requires prints.Keys == r.Keys && forall u :: u in r ==> prints[u] == r[u].fp
    ensures Matching(prints, fp) == Matches(r, fp)
    ensures (exists u :: u in prints && Compare(prints[u], fp).None?) <==> Fails(r, fp)
  {
    assert forall u :: u in prints ==> u in r && prints[u] == r[u].fp;
  }

  lemma OneElement<T>(s: set<T>, x: T)
    requires |s| == 1 && x in s
    ensures s == {x} && forall y :: y in s ==> y == x
  {
    assert |s - {x}| == 0;
  }
}
