/** The list of nodes that center serves page by page. */
module NodeList {
  import opened Tunnel
  import opened Registry
  import opened Sorting
  import opened Paging
  import RequestIds

  // --- the limit of a query ---

  const MAX_INT := 0x7FFF_FFFF_FFFF_FFFF

  /** A decimal integer of 64 bits with an optional sign. */
  function Atoi(raw: string): Option<int> {
    var signed := raw != "" && (raw[0] == '-' || raw[0] == '+');
    var digits := if signed then raw[1..] else raw;
    if digits == "" || !RequestIds.AllDigits(digits) then None
    else
      var n := RequestIds.Number(digits);
      if signed && raw[0] == '-' then (if n <= MAX_INT + 1 then Some(-n) else None)
      else if n <= MAX_INT then Some(n) else None
  }

  function ParsePositiveInt(raw: string, default: int, max: int): (n: Option<int>)
    ensures default > 0 && n.Some? ==> n.value > 0 && (max > 0 && default <= max ==> n.value <= max)
  {
    if raw == "" then Some(default)
    else
      var n := Atoi(raw);
      if n.None? || n.value <= 0 then None
      else if max > 0 && n.value > max then Some(max)
      else n
  }

  /** A positive number written in decimal is read back, up to the maximum. */
  lemma PositiveIsReadBack(n: nat, default: int, max: int)
    requires 0 < n <= MAX_INT && max > 0
    ensures ParsePositiveInt(RequestIds.Digits(n), default, max) == Some(if n > max then max else n)
  {
    RequestIds.DigitsDenote(n);
    assert RequestIds.IsDigit(RequestIds.Digits(n)[0]);
  }

  /** `raw` writes the positive 64-bit number `n` in decimal, with or without a plus. */
  predicate Writes(raw: string, n: int) {
    var digits := if raw != "" && raw[0] == '+' then raw[1..] else raw;
    digits != "" && RequestIds.AllDigits(digits) && RequestIds.Number(digits) == n && 0 < n <= MAX_INT
  }

  lemma {:induction false} NumberIsNatural(s: string)
    requires RequestIds.AllDigits(s)
    ensures RequestIds.Number(s) >= 0
  {
    if s != "" {
      assert RequestIds.IsDigit(s[|s| - 1]);
      NumberIsNatural(s[..|s| - 1]);
    }
  }

  /** A limit is accepted exactly when it is left out or writes a positive number,
      and is then that number, up to the maximum. */
  lemma AcceptedIff(raw: string, default: int, max: int)
    requires max > 0
    ensures raw == "" ==> ParsePositiveInt(raw, default, max) == Some(default)
    ensures raw != "" ==> (ParsePositiveInt(raw, default, max).None? <==> !exists n :: Writes(raw, n))
    ensures raw != "" ==> forall n :: Writes(raw, n) ==>
      ParsePositiveInt(raw, default, max) == Some(if n > max then max else n)
  {
    var n := Atoi(raw);
    if raw != "" && n.Some? && n.value > 0 {
      var digits := if raw[0] == '-' || raw[0] == '+' then raw[1..] else raw;
      assert RequestIds.AllDigits(digits);
      NumberIsNatural(digits);
      assert raw[0] != '-';
      assert Writes(raw, n.value);
    }
  }

  // --- the list ---

  datatype Query = Query(labels: string, hostname: string, status: string, cursor: string, limit: string)

  function StatusText(s: Status): string {
    if s.Online? then "online" else "offline"
  }

  predicate Wanted(r: Record, q: Query) {
    && r.nodeType.Agent?
    && (q.hostname == "" || r.hostname == q.hostname)
    && (q.status == "" || StatusText(r.status) == q.status)
  }

  function Kept(records: seq<Record>, q: Query): seq<Record> {
    if records == [] then []
    else
      var init, last := records[..|records| - 1], records[|records| - 1];
      Kept(init, q) + (if Wanted(last, q) then [last] else [])
  }

  function HostOf(r: Record): string {
    r.hostname
  }

  function Listing(records: seq<Record>, q: Query): seq<Record> {
    SortBy(HostOf, Kept(records, q))
  }

  lemma {:induction false} KeptIsExact(records: seq<Record>, q: Query)
    requires DistinctKeys(HostOf, records)
    ensures DistinctKeys(HostOf, Kept(records, q))
    ensures forall r :: r in Kept(records, q) <==> r in records && Wanted(r, q)
  {
    if records != [] {
      var init, last := records[..|records| - 1], records[|records| - 1];
      KeptIsExact(init, q);
      assert records == init + [last];
      forall r | r in init ensures HostOf(r) != HostOf(last) {
        var i := IndexIn(init, r);
        assert records[i] == r;
      }
      assert forall i :: 0 <= i < |Kept(init, q)| ==> Kept(init, q)[i] in init;
    }
  }

  /** Registry snapshots come in no particular order; the list does not depend on
      it. It holds exactly the wanted agents, once each, in strictly increasing
      order of their hostnames. */
  lemma ListingIsCanonical(a: seq<Record>, b: seq<Record>, q: Query)
    requires DistinctKeys(HostOf, a) && DistinctKeys(HostOf, b) && forall r :: r in a <==> r in b
    ensures Listing(a, q) == Listing(b, q)
    ensures Strict(HostOf, Listing(a, q))
    ensures forall r :: r in Listing(a, q) <==>
      && r in a && r.nodeType.Agent? && (q.hostname == "" || q.hostname == r.hostname)
      && (q.status == "" || (q.status == "online" && r.status.Online?) || (q.status == "offline" && r.status.Offline?))
  {
    KeptIsExact(a, q);
    KeptIsExact(b, q);
    SortBySorts(HostOf, Kept(a, q));
    SortBySorts(HostOf, Kept(b, q));
    StrictIsUnique(HostOf, Listing(a, q), Listing(b, q));
  }

  datatype Response = Listed(page: Page<Record>) | Unimplemented | BadLimit

  /** Selecting by labels is refused before the limit is looked at. */
  method ListNodes(records: seq<Record>, q: Query) returns (r: Response)
    ensures r.Unimplemented? <==> q.labels != ""
    ensures r.BadLimit? <==> q.labels == "" && ParsePositiveInt(q.limit, 50, 200).None?
    ensures r.Listed? ==>
      var items, limit := Listing(records, q), ParsePositiveInt(q.limit, 50, 200).value;
      var start := StartOf(items, HostOf, q.cursor);
      && r.page.items == items[start..End(start, limit, |items|)] && |r.page.items| <= 200
      && r.page.next == if start + limit < |items| then items[start + limit - 1].hostname else ""
  {
    if q.labels != "" {
      return Unimplemented;
    }
    var limit := ParsePositiveInt(q.limit, 50, 200);
    if limit.None? {
      return BadLimit;
    }
    var nodes: seq<Record> := [];
    for k := 0 to |records|
      invariant nodes == Kept(records[..k], q)
    {
      assert records[..k + 1][..k] == records[..k];
      if !records[k].nodeType.Agent? {
        continue;
      }
      if q.hostname != "" && records[k].hostname != q.hostname {
        continue;
      }
      if q.status != "" && StatusText(records[k].status) != q.status {
        continue;
      }
      nodes := nodes + [records[k]];
    }
    assert records[..|records|] == records;
    nodes := SortBy(HostOf, nodes);
    var first := Paginate(nodes, q.cursor, limit.value, HostOf);
    r := Listed(first);
  }
}
