/** The subdomain table and its allocator (core/cfworker_subdomain_allocator.py).
    A row's id is its position plus one; rows are never deleted here. */
module SubdomainRows {
  import opened Basics
  import opened Labels

  datatype Row = Row(root: string, tag: string, fullDomain: string, maxAccounts: int, used: nat, inflight: nat,
    enabled: bool)

  function Capacity(r: Row): int {
    if r.maxAccounts > 1 then r.maxAccounts else 1
  }

  predicate Scanned(r: Row, root: string) { r.root == root && r.enabled }

  predicate HasRoom(r: Row, root: string) {
    Scanned(r, root) && r.used + r.inflight < Capacity(r)
  }

  /** The first row of `rows[from..]` with room, `|rows|` if there is none. */
  function FirstFit(rows: seq<Row>, root: string, from: nat): (i: nat)
    requires from <= |rows|
    ensures from <= i <= |rows|
    ensures i < |rows| ==> HasRoom(rows[i], root)
    ensures forall j :: from <= j < i ==> !HasRoom(rows[j], root)
    decreases |rows| - from
  {
    if from == |rows| || HasRoom(rows[from], root) then from else FirstFit(rows, root, from + 1)
  }

  function ScannedTags(rows: seq<Row>, root: string): seq<string> {
    if |rows| == 0 then []
    else ScannedTags(rows[..|rows| - 1], root)
         + if Scanned(rows[|rows| - 1], root) then [rows[|rows| - 1].tag] else []
  }

  /** One reservation request after normalisation. */
  datatype Request = Request(root: string, prefix: string, strategy: Strategy, limit: int)

  function NewRow(rows: seq<Row>, q: Request): Row {
    var tag := MakeLabel(ScannedTags(rows, q.root), q.prefix, q.strategy);
    Row(q.root, tag, FullDomain(tag, q.root), q.limit, 0, 0, true)
  }

  function WithRow(rows: seq<Row>, q: Request): seq<Row> {
    if FirstFit(rows, q.root, 0) < |rows| then rows else rows + [NewRow(rows, q)]
  }

  /** The table after a reservation and the position of the row that took it. */
  function Reserve(rows: seq<Row>, q: Request): (r: (seq<Row>, nat))
    ensures r.1 < |r.0|
  {
    var i := FirstFit(rows, q.root, 0);
    var rows' := WithRow(rows, q);
    (rows'[i := rows'[i].(inflight := rows'[i].inflight + 1)], i)
  }

  function Minus1(n: nat): nat { if n == 0 then 0 else n - 1 }

  function Finalize(rows: seq<Row>, id: int): seq<Row> {
    if 0 < id <= |rows| then
      rows[id - 1 := rows[id - 1].(inflight := Minus1(rows[id - 1].inflight), used := rows[id - 1].used + 1)]
    else rows
  }

  function Release(rows: seq<Row>, id: int): seq<Row> {
    if 0 < id <= |rows| then rows[id - 1 := rows[id - 1].(inflight := Minus1(rows[id - 1].inflight))] else rows
  }

  function ReleaseUsed(rows: seq<Row>, id: int): seq<Row> {
    if 0 < id <= |rows| then rows[id - 1 := rows[id - 1].(used := Minus1(rows[id - 1].used))] else rows
  }

  // ---- the allocator, on rows changed in place -----------------------------------------------

  datatype Granted = Granted(id: nat, root: string, tag: string, fullDomain: string)

  class Allocator {
    var rows: seq<Row>

    constructor ()
      ensures rows == []
    {
      rows := [];
    }

    /** The scan for a row with room. */
    method FindRow(root: string) returns (target: nat)
      ensures target == FirstFit(rows, root, 0)
    {
      target := 0;
      while target < |rows| && !HasRoom(rows[target], root)
        invariant target <= |rows|
        invariant FirstFit(rows, root, 0) == FirstFit(rows, root, target)
      {
        target := target + 1;
      }
    }

    method PickLabel(root: string, prefix: string, strategy: Strategy) returns (tag: string)
      ensures tag == MakeLabel(ScannedTags(rows, root), prefix, strategy)
    {
      var tags := [];
      for i := 0 to |rows|
        invariant tags == ScannedTags(rows[..i], root)
      {
        assert rows[..i + 1][..i] == rows[..i];
        if Scanned(rows[i], root) {
          tags := tags + [rows[i].tag];
        }
      }
      assert rows[..|rows|] == rows;
      match strategy {
        case Counter => tag := CounterLabel(tags, prefix);
        case Random(draws) => tag := BuildRandomLabel(tags, prefix, draws);
      }
    }

    /** None is the "no usable root domain" error. */
    method ReserveSubdomain(rootDomain: string, prefix: string, strategy: Strategy, limit: int)
      returns (granted: Option<Granted>)
      modifies this
      ensures granted.None? <==> NormalizeDomain(rootDomain) == ""
      ensures granted.None? ==> rows == old(rows)
      ensures granted.Some? ==>
                var q := Request(NormalizeDomain(rootDomain), LabelPrefix(prefix), strategy,
                                 if limit > 1 then limit else 1);
                var (rows', i) := Reserve(old(rows), q);
                rows == rows' && granted.value == Granted(i + 1, rows'[i].root, rows'[i].tag, rows'[i].fullDomain)
    {
      hide NormalizeDomain, LabelPrefix, MakeLabel, ScannedTags, HasRoom, FullDomain;
      var root := NormalizeDomain(rootDomain);
      if root == "" {
        return None;
      }
      var max := if limit > 1 then limit else 1;
      var target := FindRow(root);
      if target == |rows| {
        var tag := PickLabel(root, LabelPrefix(prefix), strategy);
        rows := rows + [Row(root, tag, FullDomain(tag, root), max, 0, 0, true)];
      }
      rows := rows[target := rows[target].(inflight := rows[target].inflight + 1)];
      granted := Some(Granted(target + 1, rows[target].root, rows[target].tag, rows[target].fullDomain));
    }

    method FinalizeReservation(id: int)
      modifies this
      ensures rows == Finalize(old(rows), id)
    {
      if id <= 0 || id > |rows| {
        return;
      }
      var row := rows[id - 1];
      row := row.(inflight := if row.inflight - 1 > 0 then row.inflight - 1 else 0);
      row := row.(used := row.used + 1);
      rows := rows[id - 1 := row];
    }

    method ReleaseReservation(id: int)
      modifies this
      ensures rows == Release(old(rows), id)
    {
      if id <= 0 || id > |rows| {
        return;
      }
      var row := rows[id - 1];
      rows := rows[id - 1 := row.(inflight := if row.inflight - 1 > 0 then row.inflight - 1 else 0)];
    }

    method ReleaseUsedSlot(id: int)
      modifies this
      ensures rows == ReleaseUsed(old(rows), id)
    {
      if id <= 0 || id > |rows| {
        return;
      }
      var row := rows[id - 1];
      rows := rows[id - 1 := row.(used := if row.used - 1 > 0 then row.used - 1 else 0)];
    }
  }

  // ---- every row has its own domain ------------------------------------------------------------

  ghost predicate WellNamed(rows: seq<Row>) {
    && (forall i :: 0 <= i < |rows| ==>
      '.' !in rows[i].tag && rows[i].fullDomain == FullDomain(rows[i].tag, rows[i].root))
    && forall i, j :: 0 <= i < j < |rows| ==> rows[i].fullDomain != rows[j].fullDomain
  }

  ghost predicate Proper(q: Request) {
    q.limit >= 1 && '.' !in q.prefix && DotFree(q.strategy)
  }

  lemma {:induction false} ScannedTagsCover(rows: seq<Row>, root: string, i: nat)
    requires i < |rows| && Scanned(rows[i], root)
    ensures rows[i].tag in ScannedTags(rows, root)
  {
    if i < |rows| - 1 {
      ScannedTagsCover(rows[..|rows| - 1], root, i);
    }
  }

  /** A new row clashes exactly with a row of the same root and label. */
  lemma NewRowClash(rows: seq<Row>, row: Row)
    requires WellNamed(rows) && '.' !in row.tag && row.fullDomain == FullDomain(row.tag, row.root)
    ensures WellNamed(rows + [row]) <==>
      forall i :: 0 <= i < |rows| ==> !(rows[i].root == row.root && rows[i].tag == row.tag)
  {
    var rows' := rows + [row];
    forall i | 0 <= i < |rows| ensures rows[i].fullDomain == row.fullDomain <==>
      rows[i].root == row.root && rows[i].tag == row.tag {
      if rows[i].fullDomain == row.fullDomain {
        FullDomainDecodes(rows[i].tag, rows[i].root, row.tag, row.root);
      }
    }
    if i :| 0 <= i < |rows| && rows[i].root == row.root && rows[i].tag == row.tag {
      assert rows'[i].fullDomain == rows'[|rows|].fullDomain;
    }
  }

  /** Counting one more reservation does not touch the names. */
  lemma NamesAfterReserve(rows: seq<Row>, q: Request)
    ensures WellNamed(Reserve(rows, q).0) <==> WellNamed(WithRow(rows, q))
  {
    var a, b := WithRow(rows, q), Reserve(rows, q).0;
    assert forall i :: 0 <= i < |a| ==>
      b[i].tag == a[i].tag && b[i].root == a[i].root && b[i].fullDomain == a[i].fullDomain;
  }

  /** With no row disabled, a reservation keeps all full domains pairwise different, across
      roots, prefixes and strategies. */
  lemma ReserveKeepsNames(rows: seq<Row>, q: Request)
    requires WellNamed(rows) && Proper(q)
    requires forall i :: 0 <= i < |rows| ==> rows[i].enabled
    ensures WellNamed(Reserve(rows, q).0)
    ensures forall i :: 0 <= i < |Reserve(rows, q).0| ==> Reserve(rows, q).0[i].enabled
  {
    NamesAfterReserve(rows, q);
    if FirstFit(rows, q.root, 0) == |rows| {
      MadeLabelIsNew(ScannedTags(rows, q.root), q.prefix, q.strategy);
      NewRowClash(rows, NewRow(rows, q));
      forall i | 0 <= i < |rows| && rows[i].root == q.root ensures rows[i].tag != NewRow(rows, q).tag {
        ScannedTagsCover(rows, q.root, i);
      }
    }
  }

  /** The scan skips disabled rows, so with one of them the promise fails: the first new
      label repeats the disabled row's domain. */
  lemma DisabledRowIsRepeated()
    ensures var rows := [Row("r.io", "acc-0001", "acc-0001.r.io", 100, 0, 0, false)];
            var q := Request("r.io", "acc", Counter, 100);
            WellNamed(rows) && Proper(q) && Reserve(rows, q).0[1].fullDomain == rows[0].fullDomain
  {
    var row := Row("r.io", "acc-0001", "acc-0001.r.io", 100, 0, 0, false);
    hide CounterLabel, Decimal.Padded, Reserve;
    FirstCounterLabel();
    SameDomainAgain(row, Request("r.io", "acc", Counter, 100));
  }

  /** The only row is disabled and carries the label that would be made without it. */
  lemma SameDomainAgain(row: Row, q: Request)
    requires !row.enabled && row.root == q.root && row.fullDomain == FullDomain(row.tag, row.root)
    requires row.tag == MakeLabel([], q.prefix, q.strategy)
    ensures |Reserve([row], q).0| == 2 && Reserve([row], q).0[1].fullDomain == row.fullDomain
  {
    hide MakeLabel, ScannedTags, FirstFit, FullDomain;
    DisabledIsNotScanned(row, q.root);
    ReserveOpens([row], q);
  }

  lemma DisabledIsNotScanned(row: Row, root: string)
    requires !row.enabled
    ensures ScannedTags([row], root) == [] && FirstFit([row], root, 0) == 1
  {
    assert [row][..0] == [] && ScannedTags([], root) == [];
  }

  lemma FirstCounterLabel()
    ensures CounterLabel([], "acc") == "acc-0001"
  {
    assert Decimal.Numeral(1) == "1";
    assert Decimal.Padded(1, 4) == "0001";
  }

  /** The label that a request would be given if it had to open a row. */
  function NextLabel(rows: seq<Row>, q: Request): string { MakeLabel(ScannedTags(rows, q.root), q.prefix, q.strategy) }

  lemma NextLabelIsNew(rows: seq<Row>, q: Request)
    requires Proper(q)
    ensures '.' !in NextLabel(rows, q)
    ensures forall i :: 0 <= i < |rows| && rows[i].root == q.root && rows[i].tag == NextLabel(rows, q) ==>
      !rows[i].enabled
  {
    hide MakeLabel;
    MadeLabelIsNew(ScannedTags(rows, q.root), q.prefix, q.strategy);
    forall i | 0 <= i < |rows| && rows[i].enabled && rows[i].root == q.root ensures rows[i].tag != NextLabel(rows, q) {
      ScannedTagsCover(rows, q.root, i);
    }
  }

  predicate Repeats(row: Row, root: string, tag: string) { !row.enabled && row.root == root && row.tag == tag }

  /** In general, with either strategy and any draws, a reservation repeats a domain exactly when
      it opens a row and some disabled row of that root already carries the label it makes. */
  lemma RepeatsExactlyDisabled(rows: seq<Row>, q: Request)
    requires WellNamed(rows) && Proper(q)
    ensures !WellNamed(Reserve(rows, q).0) <==>
              FirstFit(rows, q.root, 0) == |rows|
              && exists i :: 0 <= i < |rows| && Repeats(rows[i], q.root, NextLabel(rows, q))
  {
    hide FirstFit, MakeLabel, ScannedTags;
    NamesAfterReserve(rows, q);
    if FirstFit(rows, q.root, 0) == |rows| {
      NextLabelIsNew(rows, q);
      NewRowClash(rows, NewRow(rows, q));
    }
  }

  // ---- first fit is tight ------------------------------------------------------------------------

  function Load(rows: seq<Row>): nat {
    if |rows| == 0 then 0 else Load(rows[..|rows| - 1]) + rows[|rows| - 1].used + rows[|rows| - 1].inflight
  }

  ghost predicate WithinCapacity(rows: seq<Row>) {
    forall i :: 0 <= i < |rows| ==> rows[i].used + rows[i].inflight <= Capacity(rows[i])
  }

  /** One root, one limit, no row disabled. */
  ghost predicate Uniform(rows: seq<Row>, root: string, limit: int) {
    forall i :: 0 <= i < |rows| ==> rows[i].root == root && rows[i].enabled && rows[i].maxAccounts == limit
  }

  /** The rows of one root, in a table that serves any number of roots. */
  function Of(rows: seq<Row>, root: string): seq<Row> {
    if |rows| == 0 then []
    else Of(rows[..|rows| - 1], root) + if rows[|rows| - 1].root == root then [rows[|rows| - 1]] else []
  }

  lemma OfOneMore(rows: seq<Row>, row: Row, root: string)
    ensures Of(rows + [row], root) == Of(rows, root) + if row.root == root then [row] else []
  {
    assert (rows + [row])[..|rows|] == rows;
  }

  /** Changing one row, but not its root, changes one row of its root and none of any other. */
  lemma {:induction false} OfAfterChange(rows: seq<Row>, i: nat, row: Row, root: string)
    requires i < |rows| && row.root == rows[i].root
    ensures |Of(rows[..i], root)| <= |Of(rows, root)|
    ensures row.root != root ==> Of(rows[i := row], root) == Of(rows, root)
    ensures row.root == root ==>
      var p := |Of(rows[..i], root)|;
      p < |Of(rows, root)| && Of(rows, root)[p] == rows[i] && Of(rows[i := row], root) == Of(rows, root)[p := row]
  {
    var n := |rows| - 1;
    if i < n {
      assert rows[i := row][..n] == rows[..n][i := row] && rows[..n][..i] == rows[..i];
      OfAfterChange(rows[..n], i, row, root);
    } else {
      assert rows[i := row][..n] == rows[..n];
    }
  }

  lemma {:induction false} OfMeans(rows: seq<Row>, root: string, i: nat)
    requires i < |Of(rows, root)|
    ensures Of(rows, root)[i] in rows && Of(rows, root)[i].root == root
  {
    var n := |rows| - 1;
    if i < |Of(rows[..n], root)| {
      OfMeans(rows[..n], root, i);
      assert Of(rows, root)[i] == Of(rows[..n], root)[i];
    }
  }

  lemma {:induction false} LoadBounds(rows: seq<Row>, root: string, limit: int)
    requires Uniform(rows, root, limit) && WithinCapacity(rows) && limit >= 1
    ensures Load(rows) <= |rows| * limit
    ensures (forall i :: 0 <= i < |rows| ==> !HasRoom(rows[i], root)) ==> Load(rows) == |rows| * limit
  {
    if |rows| > 0 {
      LoadBounds(rows[..|rows| - 1], root, limit);
      var last := rows[|rows| - 1];
      assert |rows| * limit == (|rows| - 1) * limit + limit;
      if !HasRoom(last, root) {
        assert last.used + last.inflight == limit;
      }
    }
  }

  lemma {:induction false} LoadAfterChange(rows: seq<Row>, i: nat, row: Row)
    requires i < |rows|
    ensures Load(rows[i := row]) == Load(rows) - rows[i].used - rows[i].inflight + row.used + row.inflight
  {
    var n := |rows| - 1;
    if i < n {
      assert rows[i := row][..n] == rows[..n][i := row];
      LoadAfterChange(rows[..n], i, row);
    } else {
      assert rows[i := row][..n] == rows[..n];
    }
  }

  datatype Op = OpReserve | OpFinalize(id: int) | OpRelease(id: int) | OpReleaseUsed(id: int)

  /** Finalising or releasing is for outstanding reservations only - what the mailbox ledger
      guarantees. */
  predicate Allowed(rows: seq<Row>, op: Op) {
    match op
    case OpFinalize(id) => 0 < id <= |rows| ==> rows[id - 1].inflight > 0
    case OpRelease(id) => 0 < id <= |rows| ==> rows[id - 1].inflight > 0
    case _ => true
  }

  function Perform(rows: seq<Row>, q: Request, op: Op): seq<Row> {
    match op
    case OpReserve => Reserve(rows, q).0
    case OpFinalize(id) => Finalize(rows, id)
    case OpRelease(id) => Release(rows, id)
    case OpReleaseUsed(id) => ReleaseUsed(rows, id)
  }

  /** The table and the highest load that one root ever carried, after each operation. */
  datatype Track = Track(rows: seq<Row>, peak: nat)

  function Max(a: nat, b: nat): nat { if a > b then a else b }

  function LoadOf(rows: seq<Row>, root: string): nat { Load(Of(rows, root)) }

  function Advance(t: Track, root: string, q: Request, op: Op): Track {
    var rows' := Perform(t.rows, q, op);
    Track(rows', Max(t.peak, LoadOf(rows', root)))
  }

  /** Requests for `root` have one limit; requests for other roots are arbitrary, and so are
      prefixes and strategies. */
  ghost predicate Legal(t: Track, root: string, limit: int, ops: seq<(Request, Op)>)
    decreases |ops|
  {
    |ops| == 0 ||
    ((ops[0].0.root == root ==> ops[0].0.limit == limit) && Allowed(t.rows, ops[0].1)
     && Legal(Advance(t, root, ops[0].0, ops[0].1), root, limit, ops[1..]))
  }

  ghost function Run(t: Track, root: string, ops: seq<(Request, Op)>): Track
    decreases |ops|
  {
    if |ops| == 0 then t else Run(Advance(t, root, ops[0].0, ops[0].1), root, ops[1..])
  }

  /** `mine` are the rows of the root. */
  ghost predicate TightRows(mine: seq<Row>, peak: nat, root: string, limit: int) {
    && limit >= 1
    && Uniform(mine, root, limit) && WithinCapacity(mine)
    && Load(mine) <= peak <= |mine| * limit
    && (|mine| > 0 ==> peak > (|mine| - 1) * limit)
  }

  ghost predicate Tight(t: Track, root: string, limit: int) { TightRows(Of(t.rows, root), t.peak, root, limit) }

  /** Changing the counts of one row of the root without raising its load. */
  lemma LighterRowStaysTight(mine: seq<Row>, peak: nat, root: string, limit: int, i: nat, used: nat, inflight: nat)
    requires TightRows(mine, peak, root, limit) && i < |mine|
    requires used + inflight <= mine[i].used + mine[i].inflight
    ensures var mine' := mine[i := mine[i].(used := used, inflight := inflight)];
            TightRows(mine', Max(peak, Load(mine')), root, limit)
  {
    LoadAfterChange(mine, i, mine[i].(used := used, inflight := inflight));
  }

  /** One more reservation on a row of the root that has room. */
  lemma FilledRowStaysTight(mine: seq<Row>, peak: nat, root: string, limit: int, i: nat)
    requires TightRows(mine, peak, root, limit) && i < |mine| && HasRoom(mine[i], root)
    ensures var mine' := mine[i := mine[i].(inflight := mine[i].inflight + 1)];
            TightRows(mine', Max(peak, Load(mine')), root, limit)
  {
    var mine' := mine[i := mine[i].(inflight := mine[i].inflight + 1)];
    LoadAfterChange(mine, i, mine[i].(inflight := mine[i].inflight + 1));
    assert Uniform(mine', root, limit) && WithinCapacity(mine');
    LoadBounds(mine', root, limit);
  }

  /** A new row for the first reservation that finds no room. */
  lemma OpenedRowStaysTight(mine: seq<Row>, peak: nat, root: string, limit: int, row: Row)
    requires TightRows(mine, peak, root, limit) && forall i :: 0 <= i < |mine| ==> !HasRoom(mine[i], root)
    requires row.root == root && row.enabled && row.maxAccounts == limit && row.used == 0 && row.inflight == 1
    ensures var mine' := mine + [row]; TightRows(mine', Max(peak, Load(mine')), root, limit)
  {
    var mine' := mine + [row];
    LoadBounds(mine, root, limit);
    assert mine'[..|mine|] == mine;
    assert Load(mine') == Load(mine) + 1;
    assert (|mine| + 1) * limit == |mine| * limit + limit;
  }

  lemma IdleStaysTight(mine: seq<Row>, peak: nat, root: string, limit: int)
    requires TightRows(mine, peak, root, limit)
    ensures TightRows(mine, Max(peak, Load(mine)), root, limit)
  {
  }

  lemma ReserveOnRoot(t: Track, root: string, limit: int, q: Request)
    requires Tight(t, root, limit) && q.root == root && q.limit == limit
    ensures Tight(Advance(t, root, q, OpReserve), root, limit)
  {
    hide Load, HasRoom, MakeLabel, TightRows, WithinCapacity;
    var mine, i := Of(t.rows, root), FirstFit(t.rows, root, 0);
    if i < |t.rows| {
      var row := t.rows[i].(inflight := t.rows[i].inflight + 1);
      RoomMeansRoot(t.rows[i], root);
      OfAfterChange(t.rows, i, row, root);
      FilledRowStaysTight(mine, t.peak, root, limit, |Of(t.rows[..i], root)|);
    } else {
      var row := NewRow(t.rows, q).(inflight := 1);
      forall j | 0 <= j < |mine| ensures !HasRoom(mine[j], root) {
        OfMeans(t.rows, root, j);
      }
      OpenedRowStaysTight(mine, t.peak, root, limit, row);
      OfOneMore(t.rows, row, root);
      ReserveOpens(t.rows, q);
      assert Of(Advance(t, root, q, OpReserve).rows, root) == mine + [row];
    }
  }

  lemma ReserveOpens(rows: seq<Row>, q: Request)
    requires FirstFit(rows, q.root, 0) == |rows|
    ensures Reserve(rows, q).0 == rows + [NewRow(rows, q).(inflight := 1)]
  {
    hide MakeLabel;
  }

  lemma RoomMeansRoot(row: Row, root: string)
    requires HasRoom(row, root)
    ensures row.root == root
  {
  }

  lemma ReserveElsewhere(t: Track, root: string, limit: int, q: Request)
    requires Tight(t, root, limit) && q.root != root
    ensures Tight(Advance(t, root, q, OpReserve), root, limit)
  {
    hide Load, HasRoom, MakeLabel, TightRows;
    var i := FirstFit(t.rows, q.root, 0);
    IdleStaysTight(Of(t.rows, root), t.peak, root, limit);
    if i < |t.rows| {
      RoomMeansRoot(t.rows[i], q.root);
      OfAfterChange(t.rows, i, t.rows[i].(inflight := t.rows[i].inflight + 1), root);
    } else {
      var row := NewRow(t.rows, q).(inflight := 1);
      OfOneMore(t.rows, row, root);
      ReserveOpens(t.rows, q);
      assert Of(t.rows, root) + [] == Of(t.rows, root);
    }
  }

  /** An operation that changes the counts of the row with this id without raising its load. */
  lemma LighterStaysTight(t: Track, root: string, limit: int, id: int, used: nat, inflight: nat)
    requires Tight(t, root, limit) && 0 < id <= |t.rows|
    requires used + inflight <= t.rows[id - 1].used + t.rows[id - 1].inflight
    ensures var rows' := t.rows[id - 1 := t.rows[id - 1].(used := used, inflight := inflight)];
            Tight(Track(rows', Max(t.peak, LoadOf(rows', root))), root, limit)
  {
    hide Load, TightRows;
    var i := id - 1;
    OfAfterChange(t.rows, i, t.rows[i].(used := used, inflight := inflight), root);
    if t.rows[i].root == root {
      LighterRowStaysTight(Of(t.rows, root), t.peak, root, limit, |Of(t.rows[..i], root)|, used, inflight);
    } else {
      IdleStaysTight(Of(t.rows, root), t.peak, root, limit);
    }
  }

  lemma NothingStaysTight(t: Track, root: string, limit: int)
    requires Tight(t, root, limit)
    ensures Tight(Track(t.rows, Max(t.peak, LoadOf(t.rows, root))), root, limit)
  {
    hide Load, TightRows;
    IdleStaysTight(Of(t.rows, root), t.peak, root, limit);
  }

  lemma StepStaysTight(t: Track, root: string, limit: int, q: Request, op: Op)
    requires Tight(t, root, limit) && (q.root == root ==> q.limit == limit) && Allowed(t.rows, op)
    ensures Tight(Advance(t, root, q, op), root, limit)
  {
    hide Tight, Load;
    match op
    case OpReserve =>
      if q.root == root {
        ReserveOnRoot(t, root, limit, q);
      } else {
        ReserveElsewhere(t, root, limit, q);
      }
    case OpFinalize(id) =>
      if 0 < id <= |t.rows| {
        var r := t.rows[id - 1];
        LighterStaysTight(t, root, limit, id, r.used + 1, Minus1(r.inflight));
      } else {
        NothingStaysTight(t, root, limit);
      }
    case OpRelease(id) =>
      if 0 < id <= |t.rows| {
        var r := t.rows[id - 1];
        LighterStaysTight(t, root, limit, id, r.used, Minus1(r.inflight));
      } else {
        NothingStaysTight(t, root, limit);
      }
    case OpReleaseUsed(id) =>
      if 0 < id <= |t.rows| {
        var r := t.rows[id - 1];
        LighterStaysTight(t, root, limit, id, Minus1(r.used), r.inflight);
      } else {
        NothingStaysTight(t, root, limit);
      }
  }

  lemma {:induction false} RunStaysTight(t: Track, root: string, limit: int, ops: seq<(Request, Op)>)
    requires Tight(t, root, limit) && Legal(t, root, limit, ops)
    ensures Tight(Run(t, root, ops), root, limit)
    decreases |ops|
  {
    hide Tight, Advance, Allowed;
    if |ops| > 0 {
      StepStaysTight(t, root, limit, ops[0].0, ops[0].1);
      RunStaysTight(Advance(t, root, ops[0].0, ops[0].1), root, limit, ops[1..]);
    }
  }

  /** First fit opens no row too many: in a table that serves any roots, after any operations the
      number of rows of one root is the peak load of that root divided by its limit, rounded up. */
  lemma RowsAreCeilingOfPeak(root: string, limit: int, ops: seq<(Request, Op)>)
    requires limit >= 1 && Legal(Track([], 0), root, limit, ops)
    ensures var t := Run(Track([], 0), root, ops);
            |Of(t.rows, root)| == (t.peak + limit - 1) / limit
  {
    hide Tight, Legal, Run;
    NoRowsAreTight(root, limit);
    RunStaysTight(Track([], 0), root, limit, ops);
    TightCeiling(Run(Track([], 0), root, ops), root, limit);
  }

  lemma NoRowsAreTight(root: string, limit: int)
    requires limit >= 1
    ensures Tight(Track([], 0), root, limit)
  {
  }

  lemma TightCeiling(t: Track, root: string, limit: int)
    requires Tight(t, root, limit)
    ensures |Of(t.rows, root)| == (t.peak + limit - 1) / limit
  {
    CeilingIs(|Of(t.rows, root)|, t.peak, limit);
  }

  lemma CeilingIs(n: nat, peak: nat, limit: int)
    requires limit >= 1 && peak <= n * limit && (n > 0 ==> peak > (n - 1) * limit)
    ensures n == (peak + limit - 1) / limit
  {
    var q, r := (peak + limit - 1) / limit, (peak + limit - 1) % limit;
    assert peak + limit - 1 == q * limit + r && 0 <= r < limit;
    assert (n + 1) * limit == n * limit + limit == (n - 1) * limit + 2 * limit;
    if q < n {
      MulMonotone(q, n - 1, limit);
    } else if q > n {
      MulMonotone(n + 1, q, limit);
    }
  }

  lemma MulMonotone(a: int, b: int, c: int)
    requires a <= b && c >= 0
    ensures a * c <= b * c
  {
  }

  /** Without that discipline the bound fails: finalising a slot twice overfills its row. */
  lemma FinalizingTwiceOverfills()
    ensures var rows := [Row("r.io", "acc-0001", "acc-0001.r.io", 1, 1, 0, true)];
            WithinCapacity(rows) && !WithinCapacity(Finalize(rows, 1))
  {
    var rows := [Row("r.io", "acc-0001", "acc-0001.r.io", 1, 1, 0, true)];
    assert Finalize(rows, 1)[0].used == 2;
  }

  /** Exactly when a finalisation overfills a table that is within capacity: its row has no slot
      in flight and is full of used ones. */
  lemma FinalizeOverfillsExactly(rows: seq<Row>, id: int)
    requires WithinCapacity(rows)
    ensures !WithinCapacity(Finalize(rows, id)) <==>
      0 < id <= |rows| && rows[id - 1].inflight == 0 && rows[id - 1].used == Capacity(rows[id - 1])
  {
    if 0 < id <= |rows| {
      var after := Finalize(rows, id);
      assert after[id - 1].used == rows[id - 1].used + 1 && Capacity(after[id - 1]) == Capacity(rows[id - 1]);
      forall i | 0 <= i < |rows| && i != id - 1 ensures after[i] == rows[i] {}
    }
  }

  /** Over any run from an empty table - any roots, prefixes, strategies and random draws,
      disciplined or not - no two rows ever get the same full domain. */
  lemma {:induction false} DomainsStayDistinct(t: Track, root: string, ops: seq<(Request, Op)>)
    requires WellNamed(t.rows) && forall i :: 0 <= i < |t.rows| ==> t.rows[i].enabled
    requires forall k :: 0 <= k < |ops| ==> Proper(ops[k].0)
    ensures WellNamed(Run(t, root, ops).rows)
    decreases |ops|
  {
    if |ops| > 0 {
      StepKeepsNames(t, root, ops[0].0, ops[0].1);
      DomainsStayDistinct(Advance(t, root, ops[0].0, ops[0].1), root, ops[1..]);
    }
  }

  lemma StepKeepsNames(t: Track, root: string, q: Request, op: Op)
    requires WellNamed(t.rows) && Proper(q) && forall i :: 0 <= i < |t.rows| ==> t.rows[i].enabled
    ensures var rows' := Advance(t, root, q, op).rows;
      WellNamed(rows') && forall i :: 0 <= i < |rows'| ==> rows'[i].enabled
  {
    if op.OpReserve? {
      ReserveKeepsNames(t.rows, q);
    } else {
      SameNames(t.rows, Advance(t, root, q, op).rows);
    }
  }

  lemma SameNames(rows: seq<Row>, rows': seq<Row>)
    requires WellNamed(rows) && |rows'| == |rows|
    requires forall i :: 0 <= i < |rows| ==>
      rows'[i].tag == rows[i].tag && rows'[i].root == rows[i].root && rows'[i].fullDomain == rows[i].fullDomain
    ensures WellNamed(rows')
  {
  }
}
