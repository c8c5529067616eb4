/** Messages of a conversation, a page at a time, by the place of a message in (created_at, id)
    order. Times alone can tie; with the id they never do. */
module Messages {
  import opened Text

  const MAX_PAGE := 100

  datatype Message = Message(id: nat, conversation: string, createdAt: int)

  datatype Key = Key(createdAt: int, id: nat)

  function KeyOf(m: Message): Key
  {
    Key(m.createdAt, m.id)
  }

  predicate Less(a: Key, b: Key)
  {
    a.createdAt < b.createdAt || (a.createdAt == b.createdAt && a.id < b.id)
  }

  datatype Range = All | Below(key: Key) | Above(key: Key)

  predicate InRange(m: Message, range: Range)
  {
    match range
    case All => true
    case Below(key) => Less(KeyOf(m), key)
    case Above(key) => Less(key, KeyOf(m))
  }

  predicate IsSelected(m: Message, conversation: string, range: Range)
  {
    m.conversation == conversation && InRange(m, range)
  }

  function Insert(sorted: seq<Message>, m: Message): seq<Message>
  {
    if sorted == [] || Less(KeyOf(sorted[|sorted| - 1]), KeyOf(m)) then sorted + [m]
    else Insert(sorted[..|sorted| - 1], m) + [sorted[|sorted| - 1]]
  }

  /** The selected rows in (created_at, id) order. */
  function Ordered(table: seq<Message>, conversation: string, range: Range): seq<Message>
  {
    if table == [] then []
    else
      var last := table[|table| - 1];
      var front := Ordered(table[..|table| - 1], conversation, range);
      if IsSelected(last, conversation, range) then Insert(front, last) else front
  }

  function First(rows: seq<Message>, n: nat): seq<Message>
  {
    if |rows| <= n then rows else rows[..n]
  }

  function Last(rows: seq<Message>, n: nat): seq<Message>
  {
    if |rows| <= n then rows else rows[|rows| - n..]
  }

  function Clamp(limit: int): nat
  {
    if limit < 1 then 1 else if limit > MAX_PAGE then MAX_PAGE else limit
  }

  /** Where a cursor is, when it is a message of this conversation. */
  function PivotKey(table: seq<Message>, conversation: string, id: nat): (r: Option<Key>)
    ensures r.Some? ==> r.value.id == id
  {
    if table == [] then None
    else
      var last := table[|table| - 1];
      if last.id == id && last.conversation == conversation then Some(KeyOf(last))
      else PivotKey(table[..|table| - 1], conversation, id)
  }

  predicate Exists(table: seq<Message>, conversation: string, range: Range)
  {
    exists i | 0 <= i < |table| :: IsSelected(table[i], conversation, range)
  }

  datatype PageOf = PageOf(rows: seq<Message>, hasMore: bool)

  function ListMessages(
      table: seq<Message>, conversation: string, limit: int, before: Option<nat>, after: Option<nat>): PageOf
  {
    var n := Clamp(limit);
    var forward := after.Some?;
    var pivotId := if before.Some? then before else after;
    var pivot := if pivotId.Some? then PivotKey(table, conversation, pivotId.value) else None;
    var rows :=
      if forward && pivot.Some? then First(Ordered(table, conversation, Above(pivot.value)), n)
      else if before.Some? && pivot.Some? then Last(Ordered(table, conversation, Below(pivot.value)), n)
      else Last(Ordered(table, conversation, All), n);
    var hasMore :=
      rows != [] &&
      Exists(table, conversation, if forward then Above(KeyOf(rows[|rows| - 1])) else Below(KeyOf(rows[0])));
    PageOf(rows, hasMore)
  }

  // ---- Order ----

  ghost predicate UniqueIds(table: seq<Message>)
  {
    forall i, j | 0 <= i < j < |table| :: table[i].id != table[j].id
  }

  ghost predicate Increasing(rows: seq<Message>)
  {
    forall i, j | 0 <= i < j < |rows| :: Less(KeyOf(rows[i]), KeyOf(rows[j]))
  }

  lemma {:induction false} InsertKeepsOrder(sorted: seq<Message>, m: Message)
    requires Increasing(sorted) && forall i | 0 <= i < |sorted| :: sorted[i].id != m.id
    ensures Increasing(Insert(sorted, m))
    ensures forall x :: x in Insert(sorted, m) <==> x in sorted || x == m
  {
    if sorted != [] && !Less(KeyOf(sorted[|sorted| - 1]), KeyOf(m)) {
      var front, last := sorted[..|sorted| - 1], sorted[|sorted| - 1];
      InsertKeepsOrder(front, m);
      assert sorted == front + [last];
      forall x | x in Insert(front, m)
        ensures Less(KeyOf(x), KeyOf(last))
      {
      }
    }
  }

  /** The rows come back in order, and are exactly those selected. */
  lemma {:induction false} OrderedIsSelection(table: seq<Message>, conversation: string, range: Range)
    requires UniqueIds(table)
    ensures Increasing(Ordered(table, conversation, range))
    ensures forall m :: m in Ordered(table, conversation, range) <==> m in table && IsSelected(m, conversation, range)
  {
    if table != [] {
      var front, last := table[..|table| - 1], table[|table| - 1];
      OrderedIsSelection(front, conversation, range);
      assert table == front + [last];
      hide IsSelected, Insert;
      var sorted := Ordered(front, conversation, range);
      forall i | 0 <= i < |sorted|
        ensures sorted[i].id != last.id
      {
        assert sorted[i] in front;
      }
      InsertKeepsOrder(sorted, last);
    }
  }

  lemma {:induction false} LastIsNewest(rows: seq<Message>, m: Message)
    requires Increasing(rows) && m in rows
    ensures m == rows[|rows| - 1] || Less(KeyOf(m), KeyOf(rows[|rows| - 1]))
  {
    var i :| 0 <= i < |rows| && rows[i] == m;
  }

  lemma {:induction false} FrontHasTheRest(rows: seq<Message>, m: Message)
    requires Increasing(rows) && rows != []
    ensures m in rows[..|rows| - 1] <==> m in rows && m != rows[|rows| - 1]
  {
    assert rows == rows[..|rows| - 1] + [rows[|rows| - 1]];
    if m in rows[..|rows| - 1] {
      var i :| 0 <= i < |rows| - 1 && rows[i] == m;
    }
  }

  lemma {:induction false} SameRowsSameOrder(a: seq<Message>, b: seq<Message>)
    requires Increasing(a) && Increasing(b) && forall m :: m in a <==> m in b
    ensures a == b
  {
    assert a != [] ==> a[0] in b;
    assert b != [] ==> b[0] in a;
    if a != [] && b != [] {
      var x, y := a[|a| - 1], b[|b| - 1];
      assert x in a && y in b;
      LastIsNewest(a, y);
      LastIsNewest(b, x);
      assert x == y;
      hide Less;
      var fa, fb := a[..|a| - 1], b[..|b| - 1];
      forall m
        ensures m in fa <==> m in fb
      {
        FrontHasTheRest(a, m);
        FrontHasTheRest(b, m);
      }
      SameRowsSameOrder(fa, fb);
      assert a == fa + [x] && b == fb + [y];
    }
  }

  /** What comes before a message of the list is the front of the list, and what comes after it
      the rest. */
  lemma {:induction false} RangesAreSlices(table: seq<Message>, conversation: string, i: nat)
    requires UniqueIds(table) && i < |Ordered(table, conversation, All)|
    ensures
      var all := Ordered(table, conversation, All);
      && Ordered(table, conversation, Below(KeyOf(all[i]))) == all[..i]
      && Ordered(table, conversation, Above(KeyOf(all[i]))) == all[i + 1..]
  {
    OrderedIsSelection(table, conversation, All);
    hide Ordered;
    var all := Ordered(table, conversation, All);
    var key := KeyOf(all[i]);
    OrderedIsSelection(table, conversation, Below(key));
    OrderedIsSelection(table, conversation, Above(key));
    forall m
      ensures m in Ordered(table, conversation, Below(key)) <==> m in all[..i]
      ensures m in Ordered(table, conversation, Above(key)) <==> m in all[i + 1..]
    {
      if m in all {
        var j :| 0 <= j < |all| && all[j] == m;
      }
    }
    SameRowsSameOrder(Ordered(table, conversation, Below(key)), all[..i]);
    SameRowsSameOrder(Ordered(table, conversation, Above(key)), all[i + 1..]);
  }

  lemma {:induction false} PivotOfRow(table: seq<Message>, conversation: string, m: Message)
    requires UniqueIds(table) && m in table && m.conversation == conversation
    ensures PivotKey(table, conversation, m.id) == Some(KeyOf(m))
  {
    var front, last := table[..|table| - 1], table[|table| - 1];
    assert table == front + [last];
    if m != last {
      PivotOfRow(front, conversation, m);
      var j :| 0 <= j < |front| && front[j] == m;
      assert table[j].id != last.id;
    }
  }

  lemma {:induction false} ExistsIfOrdered(table: seq<Message>, conversation: string, range: Range)
    requires UniqueIds(table)
    ensures Exists(table, conversation, range) <==> Ordered(table, conversation, range) != []
  {
    OrderedIsSelection(table, conversation, range);
    var rows := Ordered(table, conversation, range);
    if rows != [] {
      assert rows[0] in rows;
    }
    if Exists(table, conversation, range) {
      var i :| 0 <= i < |table| && IsSelected(table[i], conversation, range);
      assert table[i] in rows;
    }
  }

  // ---- What a page is ----

  function Whole(table: seq<Message>, conversation: string): seq<Message>
  {
    Ordered(table, conversation, All)
  }

  /** The page that ends before place `i`, and whether anything is left before it. */
  function SliceBefore(all: seq<Message>, i: nat, n: nat): PageOf
    requires i <= |all|
  {
    var start := if i > n then i - n else 0;
    PageOf(all[start..i], start > 0)
  }

  lemma {:induction false} HasOlder(table: seq<Message>, conversation: string, start: nat)
    requires UniqueIds(table) && start < |Whole(table, conversation)|
    ensures
      var all := Whole(table, conversation);
      && (Exists(table, conversation, Below(KeyOf(all[start]))) <==> start > 0)
      && (Exists(table, conversation, Above(KeyOf(all[start]))) <==> start + 1 < |all|)
  {
    var all := Whole(table, conversation);
    RangesAreSlices(table, conversation, start);
    ExistsIfOrdered(table, conversation, Below(KeyOf(all[start])));
    ExistsIfOrdered(table, conversation, Above(KeyOf(all[start])));
  }

  /** As many messages as asked for, but one at least and a hundred at most. */
  predicate IsPageSize(limit: int, n: nat)
  {
    n == if limit < 1 then 1 else if limit > 100 then 100 else limit
  }

  /** With no cursor, a page is the end of the conversation, and has_more tells of older ones. */
  lemma {:induction false} LatestPage(table: seq<Message>, conversation: string, limit: int, n: nat)
    requires UniqueIds(table) && IsPageSize(limit, n)
    ensures
      var all := Whole(table, conversation);
      ListMessages(table, conversation, limit, None, None) == SliceBefore(all, |all|, n)
  {
    hide Ordered, Exists;
    var all := Whole(table, conversation);
    var page := SliceBefore(all, |all|, n);
    assert page.rows == Last(all, n);
    if page.rows != [] {
      HasOlder(table, conversation, |all| - |page.rows|);
    }
  }

  /** A page before a message is the messages just before it, and has_more tells of
      older ones. */
  lemma {:induction false} BeforePage(table: seq<Message>, conversation: string, limit: int, n: nat, i: nat)
    requires UniqueIds(table) && IsPageSize(limit, n) && i < |Whole(table, conversation)|
    ensures
      var all := Whole(table, conversation);
      ListMessages(table, conversation, limit, Some(all[i].id), None) == SliceBefore(all, i, n)
  {
    var all := Whole(table, conversation);
    OrderedIsSelection(table, conversation, All);
    hide Ordered, Exists, PivotKey;
    PivotOfRow(table, conversation, all[i]);
    RangesAreSlices(table, conversation, i);
    var page := SliceBefore(all, i, n);
    assert page.rows == Last(all[..i], n);
    if page.rows != [] {
      HasOlder(table, conversation, i - |page.rows|);
    }
  }

  lemma {:induction false} FirstOfRest(all: seq<Message>, i: nat, n: nat)
    requires i < |all|
    ensures First(all[i + 1..], n) == all[i + 1..if i + 1 + n < |all| then i + 1 + n else |all|]
  {
  }

  /** A page after a message is the messages just after it, and has_more tells of newer
      ones. */
  lemma {:induction false} AfterPage(table: seq<Message>, conversation: string, limit: int, n: nat, i: nat)
    requires UniqueIds(table) && IsPageSize(limit, n) && i < |Whole(table, conversation)|
    ensures
      var all := Whole(table, conversation);
      var end := if i + 1 + n < |all| then i + 1 + n else |all|;
      ListMessages(table, conversation, limit, None, Some(all[i].id)) ==
      PageOf(all[i + 1..end], i + 1 < |all| && end < |all|)
  {
    var all := Whole(table, conversation);
    OrderedIsSelection(table, conversation, All);
    hide Ordered, Exists, PivotKey, Last, IsSelected, Less;
    PivotOfRow(table, conversation, all[i]);
    RangesAreSlices(table, conversation, i);
    var end := if i + 1 + n < |all| then i + 1 + n else |all|;
    FirstOfRest(all, i, n);
    if i + 1 < |all| {
      HasOlder(table, conversation, end - 1);
    }
  }

  // ---- Walking back ----

  /** A client that starts at the latest page and asks for what is before the first row it has,
      until there is no more. `tables` is what it meets, one table for each request. */
  function WalkBack(tables: seq<seq<Message>>, conversation: string, limit: int, before: Option<nat>): (r: PageOf)
    requires tables != []
    decreases |tables|
  {
    var page := ListMessages(tables[0], conversation, limit, before, None);
    if !page.hasMore || |tables| == 1 then page
    else
      var older := WalkBack(tables[1..], conversation, limit, Some(page.rows[0].id));
      PageOf(older.rows + page.rows, older.hasMore)
  }

  /** Messages only arrive, and those of the conversation that arrive are newer than any then in it. */
  ghost predicate Arrived(table: seq<Message>, later: seq<Message>, conversation: string)
  {
    && table <= later
    && forall i, j | 0 <= i < |table| <= j < |later| ::
         table[i].conversation == conversation == later[j].conversation ==> Less(KeyOf(table[i]), KeyOf(later[j]))
  }

  /** Newer messages go to the end of the list. */
  lemma {:induction false} ArrivalsComeLast(table: seq<Message>, later: seq<Message>, conversation: string)
    requires UniqueIds(later) && Arrived(table, later, conversation)
    ensures Whole(table, conversation) <= Whole(later, conversation)
  {
    if |table| < |later| {
      var front, last := later[..|later| - 1], later[|later| - 1];
      ArrivalsComeLast(table, front, conversation);
      NewestIsInsertedLast(table, front, last, conversation);
    } else {
      assert table == later;
    }
  }

  lemma {:induction false} NewestIsInsertedLast(
      table: seq<Message>, front: seq<Message>, last: Message, conversation: string)
    requires UniqueIds(front + [last]) && Arrived(table, front + [last], conversation) && |table| <= |front|
    requires Whole(table, conversation) <= Whole(front, conversation)
    ensures Whole(table, conversation) <= Whole(front + [last], conversation)
  {
    assert (front + [last])[..|front|] == front;
    OrderedIsSelection(table, conversation, All);
    if last.conversation == conversation {
      var earlier := Whole(table, conversation);
      forall i | 0 <= i < |earlier|
        ensures Less(KeyOf(earlier[i]), KeyOf(last))
      {
        assert earlier[i] in table;
        var k :| 0 <= k < |table| && table[k] == earlier[i];
        assert (front + [last])[|front|] == last;
      }
      InsertPastPrefix(Whole(front, conversation), earlier, last);
    }
  }

  lemma {:induction false} InsertPastPrefix(sorted: seq<Message>, earlier: seq<Message>, m: Message)
    requires earlier <= sorted && forall i | 0 <= i < |earlier| :: Less(KeyOf(earlier[i]), KeyOf(m))
    ensures earlier <= Insert(sorted, m)
  {
    if sorted != [] && !Less(KeyOf(sorted[|sorted| - 1]), KeyOf(m)) {
      assert earlier <= sorted[..|sorted| - 1];
      InsertPastPrefix(sorted[..|sorted| - 1], earlier, m);
    }
  }

  ghost predicate OnlyArrivals(tables: seq<seq<Message>>, conversation: string)
  {
    && (forall k | 0 <= k < |tables| :: UniqueIds(tables[k]))
    && (forall k, l | 0 <= k < l < |tables| :: Arrived(tables[k], tables[l], conversation))
  }

  /** From a place in the list, the walk brings back all that is before it. */
  lemma {:induction false} WalkFrom(
      tables: seq<seq<Message>>, conversation: string, limit: int, all: seq<Message>, i: nat)
    requires tables != [] && OnlyArrivals(tables, conversation)
    requires i < |all| && all <= Whole(tables[0], conversation) && i < |tables|
    ensures WalkBack(tables, conversation, limit, Some(all[i].id)) == PageOf(all[..i], false)
    decreases |tables|
  {
    hide Whole, ListMessages;
    var whole := Whole(tables[0], conversation);
    BeforePage(tables[0], conversation, limit, Clamp(limit), i);
    var page := SliceBefore(whole, i, Clamp(limit));
    var start := i - |page.rows|;
    if page.hasMore {
      assert OnlyArrivals(tables[1..], conversation) by {
        assert forall k | 0 <= k < |tables| - 1 :: tables[1..][k] == tables[k + 1];
      }
      assert Arrived(tables[0], tables[1], conversation);
      ArrivalsComeLast(tables[0], tables[1], conversation);
      assert all <= Whole(tables[1..][0], conversation);
      assert page.rows[0] == all[start];
      WalkFrom(tables[1..], conversation, limit, all, start);
      assert all[..start] + page.rows == all[..i];
    } else {
      assert page.rows == all[..i];
    }
  }

  /** Walking back from the latest page brings back every message that was there at the start,
      once, in order, and then stops: ties in time and messages that arrive on the way make no
      difference. One request for each message is always enough. */
  lemma {:induction false} WalkYieldsEverything(tables: seq<seq<Message>>, conversation: string, limit: int)
    requires tables != [] && OnlyArrivals(tables, conversation)
    requires |tables| > |Whole(tables[0], conversation)|
    ensures WalkBack(tables, conversation, limit, None) == PageOf(Whole(tables[0], conversation), false)
  {
    hide Whole, ListMessages;
    var all := Whole(tables[0], conversation);
    LatestPage(tables[0], conversation, limit, Clamp(limit));
    var page := SliceBefore(all, |all|, Clamp(limit));
    var start := |all| - |page.rows|;
    if page.hasMore {
      assert OnlyArrivals(tables[1..], conversation) by {
        assert forall k | 0 <= k < |tables| - 1 :: tables[1..][k] == tables[k + 1];
      }
      assert Arrived(tables[0], tables[1], conversation);
      ArrivalsComeLast(tables[0], tables[1], conversation);
      assert page.rows[0] == all[start];
      WalkFrom(tables[1..], conversation, limit, all, start);
      assert all[..start] + page.rows == all;
    } else {
      assert page.rows == all;
    }
  }

  /** A cursor that is not in the conversation falls back to the latest page. For a forward page
      there is then nothing newer, so has_more is false. */
  lemma {:induction false} UnknownCursor(table: seq<Message>, conversation: string, limit: int, id: nat)
    requires UniqueIds(table)
    requires forall i | 0 <= i < |table| :: !(table[i].id == id && table[i].conversation == conversation)
    ensures
      var latest := ListMessages(table, conversation, limit, None, None);
      && ListMessages(table, conversation, limit, Some(id), None) == latest
      && ListMessages(table, conversation, limit, None, Some(id)) == PageOf(latest.rows, false)
  {
    hide Ordered, Exists, PivotKey;
    NoPivot(table, conversation, id);
    var all := Whole(table, conversation);
    if all != [] {
      HasOlder(table, conversation, |all| - 1);
    }
  }

  lemma {:induction false} NoPivot(table: seq<Message>, conversation: string, id: nat)
    requires forall i | 0 <= i < |table| :: !(table[i].id == id && table[i].conversation == conversation)
    ensures PivotKey(table, conversation, id).None?
  {
    if table != [] {
      NoPivot(table[..|table| - 1], conversation, id);
    }
  }

  /** With two cursors the page is the one after the first: the second is not looked at. */
  lemma {:induction false} BothCursors(table: seq<Message>, conversation: string, limit: int, n: nat, i: nat, id: nat)
    requires UniqueIds(table) && IsPageSize(limit, n) && i < |Whole(table, conversation)|
    ensures
      var all := Whole(table, conversation);
      var end := if i + 1 + n < |all| then i + 1 + n else |all|;
      ListMessages(table, conversation, limit, Some(all[i].id), Some(id)) ==
      PageOf(all[i + 1..end], i + 1 < |all| && end < |all|)
  {
    hide Ordered, Exists, PivotKey, Last, First;
    AfterPage(table, conversation, limit, n, i);
  }
}
