/** The in-memory registry of center and proxy: one record per hostname, whose
    status and heartbeat time change in place. The functions on tables say what
    each operation does; class Registry does it on shared record objects. */
module Registry {
  import opened Tunnel

  datatype Status = Online | Offline

  datatype Record = Record(
    hostname: Host,
    info: Info,
    nodeType: NodeType,
    path: seq<Host>,
    registeredAt: int,
    lastHeartbeat: int,
    status: Status,
    route: StreamId)

  type Table = map<Host, Record>

  predicate Keyed(t: Table) {
    forall h :: h in t ==> t[h].hostname == h
  }

  // --- what the operations do to a table ---

  function WithoutStream(t: Table, s: StreamId): Table {
    map h | h in t && t[h].route != s :: t[h]
  }

  function Beaten(t: Table, h: Host, now: int): Table {
    if h in t then t[h := t[h].(lastHeartbeat := now, status := Online)] else t
  }

  predicate Stale(r: Record, now: int, timeout: int) {
    r.status.Online? && now - r.lastHeartbeat > timeout
  }

  function CheckedRecord(r: Record, now: int, timeout: int): Record {
    if Stale(r, now, timeout) then r.(status := Offline) else r
  }

  function Checked(t: Table, now: int, timeout: int): Table {
    map h | h in t :: CheckedRecord(t[h], now, timeout)
  }

  /** The hosts a liveness check at time `now` reports. */
  function Notices(t: Table, now: int, timeout: int): set<Host> {
    set h | h in t && Stale(t[h], now, timeout)
  }

  function OnlineHosts(t: Table): set<Host> {
    set h | h in t && t[h].status.Online?
  }

  // --- runs of registry operations ---

  datatype Op =
    | Register(rec: Record)
    | Unregister(host: Host)
    | UnregisterByStream(stream: StreamId)
    | UpdateHeartbeat(host: Host, now: int)
    | CheckOffline(now: int, timeout: int)

  function Apply(t: Table, op: Op): Table {
    match op
    case Register(rec) => t[rec.hostname := rec]
    case Unregister(h) => t - {h}
    case UnregisterByStream(s) => WithoutStream(t, s)
    case UpdateHeartbeat(h, now) => Beaten(t, h, now)
    case CheckOffline(now, timeout) => Checked(t, now, timeout)
  }

  function Run(t: Table, ops: seq<Op>): Table
    decreases |ops|
  {
    if ops == [] then t else Run(Apply(t, ops[0]), ops[1..])
  }

  /** The hosts whose offline callback runs at step `i`. */
  function NoticesAt(t: Table, ops: seq<Op>, i: nat): set<Host>
    requires i < |ops|
  {
    if ops[i].CheckOffline? then Notices(Run(t, ops[..i]), ops[i].now, ops[i].timeout) else {}
  }

  /** A heartbeat or a registration of `h`: what can bring a host back online. */
  predicate Revives(op: Op, h: Host) {
    || (op.UpdateHeartbeat? && op.host == h)
    || (op.Register? && op.rec.hostname == h)
  }

  lemma {:induction false} RunSplit(t: Table, ops: seq<Op>, i: nat)
    requires i <= |ops|
    ensures Run(t, ops) == Run(Run(t, ops[..i]), ops[i..])
    decreases i
  {
    if i == 0 {
      assert ops[..0] == [] && ops[0..] == ops;
    } else {
      assert ops[..i][0] == ops[0] && ops[..i][1..] == ops[1..][..i - 1];
      assert ops[i..] == ops[1..][i - 1..];
      RunSplit(Apply(t, ops[0]), ops[1..], i - 1);
    }
  }

  /** Record keys stay equal to the hostnames of the records, in every run. */
  lemma {:induction false} KeysAreHostnames(t: Table, ops: seq<Op>)
    requires Keyed(t)
    ensures Keyed(Run(t, ops))
    decreases |ops|
  {
    if ops != [] {
      KeysAreHostnames(Apply(t, ops[0]), ops[1..]);
    }
  }

  /** A host that is not online stays so while nothing revives it. */
  lemma {:induction false} StaysDown(t: Table, ops: seq<Op>, h: Host)
    requires h !in OnlineHosts(t)
    requires forall k :: 0 <= k < |ops| ==> !Revives(ops[k], h)
    ensures h !in OnlineHosts(Run(t, ops))
    decreases |ops|
  {
    if ops != [] {
      assert !Revives(ops[0], h);
      StaysDown(Apply(t, ops[0]), ops[1..], h);
    }
  }

  /** Between two offline notices for one host there is a heartbeat or a new
      registration of that host, whatever else happens in between. */
  lemma BetweenNoticesARevival(t: Table, ops: seq<Op>, i: nat, j: nat, h: Host)
    requires i < j < |ops|
    requires h in NoticesAt(t, ops, i) && h in NoticesAt(t, ops, j)
    ensures exists k :: i < k < j && Revives(ops[k], h)
  {
    if forall k :: i < k < j ==> !Revives(ops[k], h) {
      var after := Run(t, ops[..i + 1]);
      RunSplit(t, ops[..i + 1], i);
      assert ops[..i + 1][..i] == ops[..i] && ops[..i + 1][i..] == [ops[i]];
      assert Run(Run(t, ops[..i]), [ops[i]]) == Apply(Run(t, ops[..i]), ops[i]);
      assert h !in OnlineHosts(after);
      RunSplit(t, ops[..j], i + 1);
      assert ops[..j][..i + 1] == ops[..i + 1];
      StaysDown(after, ops[..j][i + 1..], h);
      assert false;
    }
  }

  /** After a check every online record is fresh, exactly the reported hosts
      went from online to offline, and nothing else about any record changed. */
  lemma CheckIsExact(t: Table, now: int, timeout: int)
    ensures var u := Checked(t, now, timeout);
            && u.Keys == t.Keys
            && OnlineHosts(u) == OnlineHosts(t) - Notices(t, now, timeout)
            && Notices(t, now, timeout) <= OnlineHosts(t)
            && Notices(u, now, timeout) == {}
            && forall h :: h in u ==>
                 && u[h] == t[h].(status := u[h].status)
                 && (u[h].status.Online? ==> now - u[h].lastHeartbeat <= timeout)
  {
  }

  // --- when a host is online ---

  /** When the operation hears of `h`, if it does: a heartbeat of a known host, or
      a registration, which is online from its own time on. */
  function HeardAt(t: Table, op: Op, h: Host): Option<int> {
    match op
    case UpdateHeartbeat(g, now) => if g == h && h in t then Some(now) else None
    case Register(rec) => if rec.hostname == h && rec.status.Online? then Some(rec.lastHeartbeat) else None
    case _ => None
  }

  predicate Removes(t: Table, op: Op, h: Host) {
    match op
    case Unregister(g) => g == h
    case UnregisterByStream(s) => h in t && t[h].route == s
    case _ => false
  }

  /** Nothing in the run removes `h`, or hears of it. */
  predicate LeftAlone(t: Table, ops: seq<Op>, h: Host)
    decreases |ops|
  {
    ops == [] || (!Removes(t, ops[0], h) && !Revives(ops[0], h) && LeftAlone(Apply(t, ops[0]), ops[1..], h))
  }

  /** A check that comes later than its timeout after `at`. */
  predicate TooLate(op: Op, at: int) {
    op.CheckOffline? && op.now - at > op.timeout
  }

  /** A host heard of at time `at` and left alone since keeps its record, is online for as long as
      no check has come too late, and the first one that does is the one check
      that reports it. */
  lemma HeardIsOnlineIff(t: Table, op: Op, ops: seq<Op>, h: Host, at: int)
    requires HeardAt(t, op, h) == Some(at) && LeftAlone(Apply(t, op), ops, h)
    ensures var end := Run(t, [op] + ops);
            && h in end && end[h].lastHeartbeat == at
            && end[h] == (if op.Register? then op.rec else t[h]).(lastHeartbeat := at, status := end[h].status)
            && (end[h].status.Online? <==> forall k :: 0 <= k < |ops| ==> !TooLate(ops[k], at))
    ensures forall j :: 0 <= j < |ops| ==>
      (h in NoticesAt(Apply(t, op), ops, j) <==>
        TooLate(ops[j], at) && forall k :: 0 <= k < j ==> !TooLate(ops[k], at))
  {
    var heard := Apply(t, op);
    assert ([op] + ops)[1..] == ops;
    AloneIsOnlineIff(heard, ops, h, at);
    forall j | 0 <= j < |ops|
      ensures h in NoticesAt(heard, ops, j) <==>
        TooLate(ops[j], at) && forall k :: 0 <= k < j ==> !TooLate(ops[k], at)
    {
      AlonePrefix(heard, ops, h, j);
      AloneIsOnlineIff(heard, ops[..j], h, at);
    }
  }

  lemma {:induction false} AloneIsOnlineIff(t: Table, ops: seq<Op>, h: Host, at: int)
    requires h in t && t[h].lastHeartbeat == at && LeftAlone(t, ops, h)
    ensures h in Run(t, ops) && Run(t, ops)[h] == t[h].(status := Run(t, ops)[h].status)
    ensures Run(t, ops)[h].status.Online? <==>
      t[h].status.Online? && forall k :: 0 <= k < |ops| ==> !TooLate(ops[k], at)
    decreases |ops|
  {
    if ops != [] {
      var rest := ops[1..];
      AloneIsOnlineIff(Apply(t, ops[0]), rest, h, at);
      assert forall k :: 0 <= k < |rest| ==> rest[k] == ops[k + 1];
      if k :| 0 <= k < |ops| && TooLate(ops[k], at) {
        assert k == 0 || TooLate(rest[k - 1], at);
      }
    }
  }

  lemma {:induction false} AlonePrefix(t: Table, ops: seq<Op>, h: Host, j: nat)
    requires LeftAlone(t, ops, h) && j <= |ops|
    ensures LeftAlone(t, ops[..j], h)
    decreases |ops|
  {
    if j > 0 {
      assert ops[..j][0] == ops[0] && ops[..j][1..] == ops[1..][..j - 1];
      AlonePrefix(Apply(t, ops[0]), ops[1..], h, j - 1);
    }
  }

  /** Nothing in the run removes `h`, whoever speaks of it does so at `at` or
      later, and no check comes too late after `at`. */
  predicate KeptUp(t: Table, ops: seq<Op>, h: Host, at: int)
    decreases |ops|
  {
    ops == [] ||
    (&& !Removes(t, ops[0], h) && !TooLate(ops[0], at)
     && (Revives(ops[0], h) ==> HeardAt(t, ops[0], h).Some? && HeardAt(t, ops[0], h).value >= at)
     && KeptUp(Apply(t, ops[0]), ops[1..], h, at))
  }

  /** A host that has been heard of stays online, and no check reports it, until
      one comes later than its timeout, however often it is heard of again. */
  lemma {:induction false} StaysUp(t: Table, ops: seq<Op>, h: Host, at: int)
    requires h in t && t[h].status.Online? && t[h].lastHeartbeat >= at && KeptUp(t, ops, h, at)
    ensures h in Run(t, ops) && Run(t, ops)[h].status.Online? && Run(t, ops)[h].lastHeartbeat >= at
    ensures forall j :: 0 <= j < |ops| ==> h !in NoticesAt(t, ops, j)
    decreases |ops|
  {
    if ops != [] {
      var next, rest := Apply(t, ops[0]), ops[1..];
      StaysUp(next, rest, h, at);
      forall j | 0 <= j < |ops| ensures h !in NoticesAt(t, ops, j) {
        if j == 0 {
          assert ops[..0] == [];
        } else {
          assert ops[..j][0] == ops[0] && ops[..j][1..] == rest[..j - 1];
          assert h !in NoticesAt(next, rest, j - 1);
        }
      }
    }
  }

  // --- the registry itself ---

  class AgentRecord {
    const hostname: Host
    const info: Info
    const nodeType: NodeType
    const path: seq<Host>
    const registeredAt: int
    const route: StreamId
    var lastHeartbeat: int
    var status: Status

    constructor (hostname: Host, info: Info, nodeType: NodeType, path: seq<Host>, now: int, route: StreamId)
      ensures View() == Record(hostname, info, nodeType, path, now, now, Online, route)
      ensures this.hostname == hostname
    {
      this.hostname, this.info, this.nodeType, this.path := hostname, info, nodeType, path;
      this.registeredAt, this.lastHeartbeat := now, now;
      this.status, this.route := Online, route;
    }

    function View(): Record
      reads this
    {
      Record(hostname, info, nodeType, path, registeredAt, lastHeartbeat, status, route)
    }
  }

  class Registry {
    var records: map<Host, AgentRecord>
    var onlineGauge: nat

    /** Records sit under their own hostname, so no two keys share a record. */
    ghost predicate Valid()
      reads this
    {
      forall h :: h in records ==> records[h].hostname == h
    }

    function View(): Table
      reads this`records, records.Values
    {
      map h | h in records :: records[h].View()
    }

    constructor ()
      ensures Valid() && records == map[] && View() == map[]
    {
      records, onlineGauge := map[], 0;
    }

    /** Adds a record, or replaces the one that held its hostname. */
    method Register(rec: AgentRecord)
      requires Valid()
      modifies this
      ensures Valid()
      ensures records == old(records)[rec.hostname := rec]
      ensures View() == old(View())[rec.hostname := rec.View()]
      ensures onlineGauge == |OnlineHosts(View())|
    {
      records := records[rec.hostname := rec];
      UpdateGauge();
    }

    method Unregister(hostname: Host)
      requires Valid()
      modifies this`records
      ensures Valid()
      ensures records == old(records) - {hostname}
      ensures View() == old(View()) - {hostname}
    {
      records := records - {hostname};
    }

    /** Removes every record routed over `s` and says which hosts went. */
    method UnregisterByStream(s: StreamId) returns (removed: seq<Host>)
      requires Valid()
      modifies this`records
      ensures Valid()
      ensures forall h :: h in records ==> h in old(records) && records[h] == old(records)[h]
      ensures View() == WithoutStream(old(View()), s)
      ensures forall h :: h in removed <==> h in old(View()) && old(View())[h].route == s
      ensures forall i, j :: 0 <= i < j < |removed| ==> removed[i] != removed[j]
    {
      removed := [];
      var todo := records.Keys;
      while todo != {}
        invariant todo <= records.Keys <= old(records).Keys
        invariant forall h :: h in records ==> records[h] == old(records)[h]
        invariant forall h :: h in old(records) ==>
          (h in records <==> h in todo || old(records)[h].route != s)
        invariant forall h :: h in removed <==> h in old(records) && h !in records
        invariant forall i, j :: 0 <= i < j < |removed| ==> removed[i] != removed[j]
        decreases todo
      {
        var h :| h in todo;
        todo := todo - {h};
        if records[h].route == s {
          records := records - {h};
          removed := removed + [h];
        }
      }
    }

    method Lookup(hostname: Host) returns (rec: AgentRecord?)
      requires Valid()
      ensures rec == null <==> hostname !in records
      ensures rec != null ==> rec == records[hostname] && rec.View() == View()[hostname]
    {
      if hostname in records {
        rec := records[hostname];
      } else {
        rec := null;
      }
    }

    /** A snapshot of all records, each once, in an unspecified order. */
    method All() returns (out: seq<Record>)
      requires Valid()
      ensures forall r :: r in out <==> r.hostname in View() && View()[r.hostname] == r
      ensures forall i, j :: 0 <= i < j < |out| ==> out[i].hostname != out[j].hostname
      ensures |out| == |View()|
    {
      out := [];
      var todo := records.Keys;
      while todo != {}
        invariant todo <= records.Keys
        invariant forall r :: r in out <==>
          r.hostname in records && r.hostname !in todo && records[r.hostname].View() == r
        invariant forall i, j :: 0 <= i < j < |out| ==> out[i].hostname != out[j].hostname
        invariant |out| + |todo| == |records.Keys|
        decreases todo
      {
        var h :| h in todo;
        todo := todo - {h};
        out := out + [records[h].View()];
      }
      assert View().Keys == records.Keys;
    }

    method OnlineCount() returns (n: nat)
      ensures n == |OnlineHosts(View())|
    {
      n := 0;
      var todo := records.Keys;
      ghost var online: set<Host> := {};
      while todo != {}
        invariant todo <= records.Keys
        invariant online == (set h | h in records && h !in todo && records[h].status.Online?)
        invariant n == |online|
        decreases todo
      {
        var h :| h in todo;
        todo := todo - {h};
        if records[h].status.Online? {
          n := n + 1;
          online := online + {h};
        }
      }
      assert online == OnlineHosts(View());
    }

    method UpdateGauge()
      modifies this`onlineGauge
      ensures onlineGauge == |OnlineHosts(View())|
    {
      var n := OnlineCount();
      onlineGauge := n;
    }

    method UpdateHeartbeat(hostname: Host, now: int)
      requires Valid()
      modifies records.Values
      ensures Valid() && View() == Beaten(old(View()), hostname, now)
      ensures hostname in records ==> records[hostname].status == Online && records[hostname].lastHeartbeat == now
    {
      if hostname in records {
        var rec := records[hostname];
        rec.lastHeartbeat := now;
        rec.status := Online;
      }
    }

    /** Marks stale records offline in place and lists the hosts to report:
        each host that switched in this check, once. */
    method CheckOffline(now: int, timeout: int) returns (justOffline: seq<Host>)
      requires Valid()
      modifies records.Values, this`onlineGauge
      ensures Valid()
      ensures View() == Checked(old(View()), now, timeout)
      ensures forall h :: h in justOffline <==> h in Notices(old(View()), now, timeout)
      ensures forall i, j :: 0 <= i < j < |justOffline| ==> justOffline[i] != justOffline[j]
      ensures onlineGauge == |OnlineHosts(View())|
    {
      justOffline := MarkStale(now, timeout);
      UpdateGauge();
    }

    method MarkStale(now: int, timeout: int) returns (justOffline: seq<Host>)
      requires Valid()
      modifies records.Values
      ensures forall h :: h in records ==>
        records[h].View() == CheckedRecord(old(records[h].View()), now, timeout)
      ensures forall h :: h in justOffline <==> h in records && Stale(old(records[h].View()), now, timeout)
      ensures forall i, j :: 0 <= i < j < |justOffline| ==> justOffline[i] != justOffline[j]
    {
      justOffline := [];
      var todo := records.Keys;
      while todo != {}
        invariant todo <= records.Keys
        invariant forall h :: h in todo ==> records[h].View() == old(records[h].View())
        invariant forall h :: h in records && h !in todo ==>
          records[h].View() == CheckedRecord(old(records[h].View()), now, timeout)
        invariant forall h :: h in justOffline <==>
          h in records && h !in todo && Stale(old(records[h].View()), now, timeout)
        invariant forall i, j :: 0 <= i < j < |justOffline| ==> justOffline[i] != justOffline[j]
        decreases todo
      {
        var h :| h in todo;
        todo := todo - {h};
        var stale := MarkIfStale(h, now, timeout);
        if stale {
          justOffline := justOffline + [records[h].hostname];
        }
      }
    }

    method MarkIfStale(h: Host, now: int, timeout: int) returns (stale: bool)
      requires Valid() && h in records
      modifies records[h]
      ensures stale == Stale(old(records[h].View()), now, timeout)
      ensures records[h].View() == CheckedRecord(old(records[h].View()), now, timeout)
    {
      var rec := records[h];
      stale := rec.status.Online? && now - rec.lastHeartbeat > timeout;
      if stale {
        rec.status := Offline;
      }
    }
  }
}
