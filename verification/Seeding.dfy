/**
 The loops of the seeder: generated GIFs with their per-user totals, friendships without duplicates, and rows
 inserted in batches of numbered placeholders. Random draws are inputs.
 */
module Seeding {
  import opened Prelude

  // ---------- batches ----------

  /** One multi-row INSERT: for every row the placeholder numbers of its columns, and the arguments. */
  datatype Statement<V> = Statement(values: seq<seq<int>>, args: seq<V>)

  /** Every placeholder names one of `count` arguments; `$n` is the n-th, counted from one. */
  predicate IsWithin(columns: seq<int>, count: nat) {
    forall k :: 0 <= k < |columns| ==> 1 <= columns[k] <= count
  }

  predicate IsBound<V>(st: Statement<V>) {
    forall r :: 0 <= r < |st.values| ==> IsWithin(st.values[r], |st.args|)
  }

  /** The row the database gets for the placeholders `columns`. */
  function RowOf<V>(args: seq<V>, columns: seq<int>): seq<V>
    requires IsWithin(columns, |args|)
  {
    seq(|columns|, k requires 0 <= k < |columns| => args[columns[k] - 1])
  }

  function RowsOf<V>(st: Statement<V>): seq<seq<V>>
    requires IsBound(st)
  {
    seq(|st.values|, r requires 0 <= r < |st.values| => RowOf(st.args, st.values[r]))
  }

  /** All rows the statements insert, in order. */
  function Inserted<V>(sts: seq<Statement<V>>): seq<seq<V>>
    requires forall i :: 0 <= i < |sts| ==> IsBound(sts[i])
  {
    if sts == [] then [] else Inserted(sts[..|sts| - 1]) + RowsOf(sts[|sts| - 1])
  }

  function Placeholders(offset: nat, width: nat): seq<int> {
    seq(width, k => offset + k + 1)
  }

  /** More arguments behind do not change what the placeholders of a row name. */
  lemma AppendingKeepsRow<V>(args: seq<V>, row: seq<V>, columns: seq<int>)
    requires IsWithin(columns, |args|)
    ensures IsWithin(columns, |args + row|) && RowOf(args + row, columns) == RowOf(args, columns)
  {
    assert forall k :: 0 <= k < |columns| ==> (args + row)[columns[k] - 1] == args[columns[k] - 1];
  }

  /** Placeholders numbered from the arguments so far name the row about to be appended. */
  lemma NewPlaceholdersNameRow<V>(args: seq<V>, row: seq<V>)
    ensures IsWithin(Placeholders(|args|, |row|), |args + row|)
    ensures RowOf(args + row, Placeholders(|args|, |row|)) == row
  {
    var columns := Placeholders(|args|, |row|);
    assert forall k :: 0 <= k < |row| ==> columns[k] == |args| + k + 1 && (args + row)[|args| + k] == row[k];
  }

  method BuildStatement<V>(batch: seq<seq<V>>, width: nat) returns (st: Statement<V>)
    requires forall r :: 0 <= r < |batch| ==> |batch[r]| == width
    ensures IsBound(st) && RowsOf(st) == batch && |st.args| == width * |batch|
  {
    hide Placeholders, IsWithin, RowOf;
    var values, args := [], [];
    for i := 0 to |batch|
      invariant |values| == i && |args| == width * i
      invariant forall r :: 0 <= r < i ==> IsWithin(values[r], |args|)
      invariant forall r :: 0 <= r < i ==> RowOf(args, values[r]) == batch[r]
    {
      var columns := Placeholders(|args|, width);
      NewPlaceholdersNameRow(args, batch[i]);
      forall r | 0 <= r < i
        ensures IsWithin(values[r], |args + batch[i]|) && RowOf(args + batch[i], values[r]) == batch[r]
      {
        AppendingKeepsRow(args, batch[i], values[r]);
      }
      values, args := values + [columns], args + batch[i];
    }
    st := Statement(values, args);
    assert RowsOf(st) == batch;
  }

  /**
   The batch loop that every table is filled with. The statements insert exactly `rows`, in order, and each
   placeholder names its own row's field.
   */
  method InsertInBatches<V>(rows: seq<seq<V>>, width: nat, batchSize: nat) returns (sts: seq<Statement<V>>)
    requires batchSize > 0 && forall r :: 0 <= r < |rows| ==> |rows[r]| == width
    ensures forall i :: 0 <= i < |sts| ==> IsBound(sts[i])
    ensures Inserted(sts) == rows
    ensures |sts| == CeilDiv(|rows|, batchSize)
    ensures forall i :: 0 <= i < |sts| ==> 0 < |sts[i].values| <= batchSize && |sts[i].args| == width * |sts[i].values|
  {
    hide RowsOf, Inserted, IsBound;
    sts := [];
    assert Inserted(sts) == rows[..0] by {
      NothingInserted<V>();
    }
    var i := 0;
    while i < |rows|
      invariant 0 <= i && i == |sts| * batchSize
      invariant i < |rows| + batchSize
      invariant forall j :: 0 <= j < |sts| ==> IsBound(sts[j])
      invariant Inserted(sts) == rows[..Min(i, |rows|)]
      invariant forall j :: 0 <= j < |sts| ==>
        0 < |sts[j].values| <= batchSize && |sts[j].args| == width * |sts[j].values|
    {
      var end := i + batchSize;
      if end > |rows| {
        end := |rows|;
      }
      var st := BuildStatement(rows[i..end], width);
      InsertedOneMore(sts, st);
      assert rows[..i] + rows[i..end] == rows[..end];
      sts := sts + [st];
      i := i + batchSize;
    }
    assert rows[..|rows|] == rows;
    CountIsCeiling(|rows|, batchSize, |sts|);
  }

  lemma NothingInserted<V>()
    ensures Inserted<V>([]) == []
  {
  }

  lemma InsertedOneMore<V>(sts: seq<Statement<V>>, st: Statement<V>)
    requires IsBound(st) && forall i :: 0 <= i < |sts| ==> IsBound(sts[i])
    ensures Inserted(sts + [st]) == Inserted(sts) + RowsOf(st)
    ensures |st.values| == |RowsOf(st)|
  {
    assert (sts + [st])[..|sts|] == sts;
  }

  lemma CountIsCeiling(n: nat, size: nat, count: nat)
    requires size > 0 && n <= count * size < n + size
    ensures count == CeilDiv(n, size)
  {
    CeilDivIsLeastCover(n, size, count);
    CeilDivIsLeastCover(n, size, count - 1);
    assert (count - 1) * size == count * size - size;
  }

  // ---------- friendships ----------

  datatype Friendship = Friendship(requester: string, addressee: string, accepted: bool)

  /** One draw: whom to befriend, and whether the friendship stays pending. */
  datatype Draw = Draw(target: nat, pending: bool)

  function PairKey(a: string, b: string): string {
    a + ":" + b
  }

  lemma PairKeyIsInjective(a: string, b: string, c: string, d: string)
    requires ':' !in a && ':' !in c && PairKey(a, b) == PairKey(c, d)
    ensures a == c && b == d
  {
    var key := PairKey(a, b);
    assert forall i :: 0 <= i < |a| ==> key[i] == a[i] && a[i] != ':';
    assert forall i :: 0 <= i < |c| ==> key[i] == c[i] && c[i] != ':';
    assert key[|a|] == ':' && key[|c|] == ':';
    assert key[..|a|] == a && key[..|c|] == c;
    assert key[|a| + 1..] == b && key[|c| + 1..] == d;
  }

  predicate Joins(r: Friendship, a: string, b: string) {
    (r.requester == a && r.addressee == b) || (r.requester == b && r.addressee == a)
  }

  ghost predicate AreJoined(records: seq<Friendship>, a: string, b: string) {
    exists i :: 0 <= i < |records| && Joins(records[i], a, b)
  }

  /** No self pair, and no two records of the same two users, whoever asked. */
  ghost predicate IsSimple(records: seq<Friendship>) {
    && (forall i :: 0 <= i < |records| ==> records[i].requester != records[i].addressee)
    && (forall i, j :: 0 <= i < j < |records| ==> !Joins(records[j], records[i].requester, records[i].addressee))
  }

  function KeysOf(records: seq<Friendship>): set<string> {
    set r | r in records :: PairKey(r.requester, r.addressee)
  }

  /** The pairs whose friendship was accepted, in order. */
  function AcceptedPairs(records: seq<Friendship>): seq<(string, string)> {
    if records == [] then []
    else
      var last := records[|records| - 1];
      AcceptedPairs(records[..|records| - 1]) + (if last.accepted then [(last.requester, last.addressee)] else [])
  }

  ghost predicate AreIds(users: seq<string>) {
    && (forall i :: 0 <= i < |users| ==> ':' !in users[i])
    && (forall i, j :: 0 <= i < j < |users| ==> users[i] != users[j])
  }

  /** The `f`-th draw of user `idx` picked somebody else, and the two are `a` and `b`. */
  ghost predicate WasDrawn(users: seq<string>, draws: seq<seq<Draw>>, idx: nat, f: nat, a: string, b: string) {
    && idx < |users| && idx < |draws| && f < |draws[idx]| && draws[idx][f].target < |users|
    && draws[idx][f].target != idx
    && Joins(Friendship(users[idx], users[draws[idx][f].target], true), a, b)
  }

  /** Some draw before the `f`-th one of user `idx` joins the two. */
  ghost predicate DrawnBefore(users: seq<string>, draws: seq<seq<Draw>>, idx: nat, f: nat, a: string, b: string) {
    exists i: nat, g: nat :: WasDrawn(users, draws, i, g, a, b) && (i < idx || (i == idx && g < f))
  }

  function RecordOf(users: seq<string>, idx: nat, draw: Draw): Friendship
    requires idx < |users| && draw.target < |users|
  {
    Friendship(users[idx], users[draw.target], !draw.pending)
  }

  /** `r` is what the first draw that joined its two users made of them. */
  ghost predicate IsFirstDraw(users: seq<string>, draws: seq<seq<Draw>>, r: Friendship) {
    exists idx: nat, f: nat ::
      && WasDrawn(users, draws, idx, f, r.requester, r.addressee)
      && r == Friendship(users[idx], users[draws[idx][f].target], !draws[idx][f].pending)
      && !DrawnBefore(users, draws, idx, f, r.requester, r.addressee)
  }

  lemma KeyFindsRecord(records: seq<Friendship>, a: string, b: string)
    requires ':' !in a && forall i :: 0 <= i < |records| ==> ':' !in records[i].requester
    ensures PairKey(a, b) in KeysOf(records) <==>
      exists i :: 0 <= i < |records| && records[i].requester == a && records[i].addressee == b
  {
    if PairKey(a, b) in KeysOf(records) {
      var r :| r in records && PairKey(r.requester, r.addressee) == PairKey(a, b);
      PairKeyIsInjective(r.requester, r.addressee, a, b);
    }
  }

  /** Befriends `target` unless it is the user, or the two are joined already. */
  method Befriend(
    users: seq<string>, idx: nat, draw: Draw, records: seq<Friendship>, pairSet: set<string>,
    acceptedPairs: seq<(string, string)>)
    returns (records': seq<Friendship>, pairSet': set<string>, acceptedPairs': seq<(string, string)>)
    requires AreIds(users) && idx < |users| && draw.target < |users|
    requires IsSimple(records) && pairSet == KeysOf(records) && acceptedPairs == AcceptedPairs(records)
    requires forall i :: 0 <= i < |records| ==> records[i].requester in users && records[i].addressee in users
    ensures IsSimple(records') && pairSet' == KeysOf(records') && acceptedPairs' == AcceptedPairs(records')
    ensures forall i :: 0 <= i < |records'| ==> records'[i].requester in users && records'[i].addressee in users
    ensures records' ==
      if draw.target == idx || AreJoined(records, users[idx], users[draw.target]) then records
      else records + [RecordOf(users, idx, draw)]
    ensures forall a, b :: AreJoined(records', a, b) <==>
      AreJoined(records, a, b)
      || (draw.target != idx && Joins(Friendship(users[idx], users[draw.target], true), a, b))
  {
    hide IsSimple, KeysOf, AcceptedPairs;
    records', pairSet', acceptedPairs' := records, pairSet, acceptedPairs;
    if draw.target == idx {
      return;
    }
    var a, b := users[idx], users[draw.target];
    KeyFindsRecord(records, a, b);
    KeyFindsRecord(records, b, a);
    if PairKey(a, b) in pairSet || PairKey(b, a) in pairSet {
      assert AreJoined(records, a, b);
      return;
    }
    var r := Friendship(a, b, !draw.pending);
    pairSet' := pairSet + {PairKey(a, b)};
    if !draw.pending {
      acceptedPairs' := acceptedPairs + [(a, b)];
    }
    records' := records + [r];
    OneMoreRecord(records, r);
    assert !AreJoined(records, a, b) by {
      NotJoinedEitherWay(records, a, b);
    }
  }

  lemma NotJoinedEitherWay(records: seq<Friendship>, a: string, b: string)
    requires forall i :: 0 <= i < |records| ==> !(records[i].requester == a && records[i].addressee == b)
    requires forall i :: 0 <= i < |records| ==> !(records[i].requester == b && records[i].addressee == a)
    ensures !AreJoined(records, a, b)
  {
  }

  /**
   The friendships are exactly the pairs that were drawn, each once whatever the order and the repetitions,
   and the accepted ones are handed on.
   */
  method SeedFriendships(users: seq<string>, draws: seq<seq<Draw>>)
    returns (records: seq<Friendship>, acceptedPairs: seq<(string, string)>)
    requires AreIds(users) && |draws| == |users|
    requires forall i, f :: 0 <= i < |draws| && 0 <= f < |draws[i]| ==> draws[i][f].target < |users|
    ensures IsSimple(records) && acceptedPairs == AcceptedPairs(records)
    ensures forall a, b :: AreJoined(records, a, b) <==> DrawnBefore(users, draws, |users|, 0, a, b)
    ensures forall i :: 0 <= i < |records| ==> IsFirstDraw(users, draws, records[i])
    ensures forall i :: 0 <= i < |records| ==> records[i].requester in users && records[i].addressee in users
  {
    hide IsSimple, KeysOf, AcceptedPairs, AreJoined, WasDrawn, DrawnBefore, IsFirstDraw;
    records, acceptedPairs := [], [];
    var pairSet := {};
    NoRecords();
    NothingDrawn(users, draws);
    for idx := 0 to |users|
      invariant IsSimple(records) && pairSet == KeysOf(records) && acceptedPairs == AcceptedPairs(records)
      invariant forall i :: 0 <= i < |records| ==> records[i].requester in users && records[i].addressee in users
      invariant forall a, b :: AreJoined(records, a, b) <==> DrawnBefore(users, draws, idx, 0, a, b)
      invariant forall i :: 0 <= i < |records| ==> IsFirstDraw(users, draws, records[i])
    {
      for f := 0 to |draws[idx]|
        invariant IsSimple(records) && pairSet == KeysOf(records) && acceptedPairs == AcceptedPairs(records)
        invariant forall i :: 0 <= i < |records| ==> records[i].requester in users && records[i].addressee in users
        invariant forall a, b :: AreJoined(records, a, b) <==> DrawnBefore(users, draws, idx, f, a, b)
        invariant forall i :: 0 <= i < |records| ==> IsFirstDraw(users, draws, records[i])
      {
        FirstDrawCounts(users, draws, idx, f);
        records, pairSet, acceptedPairs := Befriend(users, idx, draws[idx][f], records, pairSet, acceptedPairs);
        OneMoreDraw(users, draws, idx, f);
      }
      NextUser(users, draws, idx);
    }
  }

  lemma FirstDrawCounts(users: seq<string>, draws: seq<seq<Draw>>, idx: nat, f: nat)
    requires idx < |users| == |draws| && f < |draws[idx]| && draws[idx][f].target < |users|
    ensures var r := RecordOf(users, idx, draws[idx][f]);
      draws[idx][f].target != idx && !DrawnBefore(users, draws, idx, f, r.requester, r.addressee) ==>
        IsFirstDraw(users, draws, r)
  {
    var r := RecordOf(users, idx, draws[idx][f]);
    if draws[idx][f].target != idx {
      assert WasDrawn(users, draws, idx, f, r.requester, r.addressee);
    }
  }

  lemma NoRecords()
    ensures IsSimple([]) && KeysOf([]) == {} && AcceptedPairs([]) == []
    ensures forall a, b :: !AreJoined([], a, b)
  {
  }

  lemma NothingDrawn(users: seq<string>, draws: seq<seq<Draw>>)
    ensures forall a, b :: !DrawnBefore(users, draws, 0, 0, a, b)
  {
  }

  lemma OneMoreDraw(users: seq<string>, draws: seq<seq<Draw>>, idx: nat, f: nat)
    requires idx < |users| == |draws| && f < |draws[idx]| && draws[idx][f].target < |users|
    ensures forall a, b :: DrawnBefore(users, draws, idx, f + 1, a, b) <==>
      DrawnBefore(users, draws, idx, f, a, b)
      || (draws[idx][f].target != idx && Joins(Friendship(users[idx], users[draws[idx][f].target], true), a, b))
  {
    forall a, b
      ensures DrawnBefore(users, draws, idx, f + 1, a, b) <==>
        DrawnBefore(users, draws, idx, f, a, b) || WasDrawn(users, draws, idx, f, a, b)
    {
      hide WasDrawn;
    }
    assert forall a, b :: WasDrawn(users, draws, idx, f, a, b) <==>
      draws[idx][f].target != idx && Joins(Friendship(users[idx], users[draws[idx][f].target], true), a, b);
    hide WasDrawn, DrawnBefore, Joins;
  }

  lemma NextUser(users: seq<string>, draws: seq<seq<Draw>>, idx: nat)
    requires idx < |users| == |draws|
    ensures forall a, b ::
      DrawnBefore(users, draws, idx + 1, 0, a, b) <==> DrawnBefore(users, draws, idx, |draws[idx]|, a, b)
  {
    forall a, b
      ensures DrawnBefore(users, draws, idx + 1, 0, a, b) <==> DrawnBefore(users, draws, idx, |draws[idx]|, a, b)
    {
      forall g: nat | WasDrawn(users, draws, idx, g, a, b)
        ensures g < |draws[idx]|
      {
      }
      hide WasDrawn;
    }
  }

  lemma OneMoreRecord(records: seq<Friendship>, r: Friendship)
    ensures KeysOf(records + [r]) == KeysOf(records) + {PairKey(r.requester, r.addressee)}
    ensures AcceptedPairs(records + [r]) ==
      AcceptedPairs(records) + (if r.accepted then [(r.requester, r.addressee)] else [])
    ensures forall a, b :: AreJoined(records + [r], a, b) <==> AreJoined(records, a, b) || Joins(r, a, b)
    ensures IsSimple(records) && r.requester != r.addressee && !AreJoined(records, r.requester, r.addressee)
      ==> IsSimple(records + [r])
  {
    var more := records + [r];
    assert more[..|records|] == records && more[|records|] == r;
    forall a, b
      ensures AreJoined(more, a, b) <==> AreJoined(records, a, b) || Joins(r, a, b)
    {
      assert forall i :: 0 <= i < |records| ==> more[i] == records[i];
    }
    if !AreJoined(records, r.requester, r.addressee) {
      forall i | 0 <= i < |records|
        ensures !Joins(r, records[i].requester, records[i].addressee)
      {
        assert !Joins(records[i], r.requester, r.addressee);
      }
    }
  }

  // ---------- gifs and quotas ----------

  const SEED_GIF_SIZE_BYTES := 3120532
  const TOTAL_BYTES := 1073741824
  const GIF_LIMIT := 100

  datatype Gif = Gif(key: string, user: string, fileSizeBytes: nat)

  datatype UserStats = UserStats(gifCount: nat, usedBytes: nat)

  /** The number and the total size of the user's GIFs among `gifs`. */
  function StatsOf(gifs: seq<Gif>, user: string): UserStats {
    if gifs == [] then UserStats(0, 0)
    else
      var last, before := gifs[|gifs| - 1], StatsOf(gifs[..|gifs| - 1], user);
      if last.user == user then UserStats(before.gifCount + 1, before.usedBytes + last.fileSizeBytes) else before
  }

  lemma StatsOfMore(gifs: seq<Gif>, gif: Gif, user: string)
    ensures var before := StatsOf(gifs, user);
      StatsOf(gifs + [gif], user) ==
        if gif.user == user then UserStats(before.gifCount + 1, before.usedBytes + gif.fileSizeBytes) else before
  {
    assert (gifs + [gif])[..|gifs|] == gifs;
  }

  /** One user's GIFs: `keys` are the random keys drawn for them. */
  method SeedUserGifs(user: string, keys: seq<string>, gifs: seq<Gif>) returns (gifs': seq<Gif>)
    ensures gifs <= gifs' && |gifs'| == |gifs| + |keys|
    ensures forall u :: u != user ==> StatsOf(gifs', u) == StatsOf(gifs, u)
    ensures var before := StatsOf(gifs, user);
      StatsOf(gifs', user) == UserStats(before.gifCount + |keys|, before.usedBytes + |keys| * SEED_GIF_SIZE_BYTES)
  {
    gifs' := gifs;
    for g := 0 to |keys|
      invariant gifs <= gifs' && |gifs'| == |gifs| + g
      invariant forall u :: u != user ==> StatsOf(gifs', u) == StatsOf(gifs, u)
      invariant StatsOf(gifs', user).gifCount == StatsOf(gifs, user).gifCount + g
      invariant StatsOf(gifs', user).usedBytes == StatsOf(gifs, user).usedBytes + g * SEED_GIF_SIZE_BYTES
    {
      var gif := Gif(keys[g], user, SEED_GIF_SIZE_BYTES);
      forall u
        ensures StatsOf(gifs' + [gif], u) ==
          if u == user
          then UserStats(StatsOf(gifs', u).gifCount + 1, StatsOf(gifs', u).usedBytes + SEED_GIF_SIZE_BYTES)
          else StatsOf(gifs', u)
      {
        StatsOfMore(gifs', gif, u);
      }
      gifs' := gifs' + [gif];
    }
  }

  /** The totals that are written down before a user's GIFs are made are those of the GIFs made. */
  method SeedGifs(users: seq<string>, draws: seq<seq<string>>) returns (gifs: seq<Gif>, stats: map<string, UserStats>)
    requires AreIds(users) && |draws| == |users|
    requires forall i :: 0 <= i < |draws| ==> 40 <= |draws[i]| <= 60
    ensures stats.Keys == set u | u in users
    ensures forall u :: u in users ==> stats[u] == StatsOf(gifs, u) && 40 <= stats[u].gifCount <= 60
    ensures forall u :: u !in users ==> StatsOf(gifs, u) == UserStats(0, 0)
  {
    gifs, stats := [], map[];
    for i := 0 to |users|
      invariant stats.Keys == set u | u in users[..i]
      invariant forall u :: u in stats ==> stats[u] == StatsOf(gifs, u) && 40 <= stats[u].gifCount <= 60
      invariant forall u :: u !in stats ==> StatsOf(gifs, u) == UserStats(0, 0)
    {
      var u, numGifs := users[i], |draws[i]|;
      assert u !in stats;
      stats := stats[u := UserStats(numGifs, numGifs * SEED_GIF_SIZE_BYTES)];
      gifs := SeedUserGifs(u, draws[i], gifs);
      assert users[..i + 1] == users[..i] + [u];
    }
    assert users[..|users|] == users;
  }

  datatype QuotaRow = QuotaRow(user: string, usedBytes: nat, totalBytes: nat, gifCount: nat)

  /** The quota rows, one per user in order; each says what the user's GIFs take up, within the limits. */
  method SeedQuotas(users: seq<string>, gifs: seq<Gif>, stats: map<string, UserStats>) returns (rows: seq<QuotaRow>)
    requires forall u :: u in users ==> StatsOf(gifs, u) == if u in stats then stats[u] else UserStats(0, 0)
    ensures |rows| == |users|
    ensures forall i :: 0 <= i < |users| ==>
      rows[i] == QuotaRow(users[i], StatsOf(gifs, users[i]).usedBytes, 1073741824, StatsOf(gifs, users[i]).gifCount)
  {
    rows := [];
    for i := 0 to |users|
      invariant |rows| == i
      invariant forall j :: 0 <= j < i ==>
        rows[j] == QuotaRow(users[j], StatsOf(gifs, users[j]).usedBytes, TOTAL_BYTES, StatsOf(gifs, users[j]).gifCount)
    {
      var usedBytes, gifCount := 0, 0;
      if users[i] in stats {
        usedBytes, gifCount := stats[users[i]].usedBytes, stats[users[i]].gifCount;
      }
      rows := rows + [QuotaRow(users[i], usedBytes, TOTAL_BYTES, gifCount)];
    }
  }

  lemma {:induction false} BytesFollowCount(gifs: seq<Gif>, user: string)
    requires forall i :: 0 <= i < |gifs| ==> gifs[i].fileSizeBytes == SEED_GIF_SIZE_BYTES
    ensures StatsOf(gifs, user).usedBytes == StatsOf(gifs, user).gifCount * SEED_GIF_SIZE_BYTES
  {
    if gifs != [] {
      BytesFollowCount(gifs[..|gifs| - 1], user);
    }
  }

  /** A seeded user stays within the default quota and may still convert. */
  lemma SeededUsersFitTheirQuota(gifs: seq<Gif>, user: string)
    requires forall i :: 0 <= i < |gifs| ==> gifs[i].fileSizeBytes == SEED_GIF_SIZE_BYTES
    requires StatsOf(gifs, user).gifCount <= 60
    ensures StatsOf(gifs, user).usedBytes <= 1073741824 && StatsOf(gifs, user).gifCount < 100
  {
    BytesFollowCount(gifs, user);
  }
}
