// What the hub removes on its own (server/internal/retention/sweep.go): sent
// files past an owner's budget, oldest first, and messages past the window.
module Retention {
  import opened Wrappers
  import opened MediaFiles

  const BATCH: nat := 500

  type Owner = nat
  type FileId = nat
  type MessageId = nat

  // A sent file's row.
  datatype File = File(id: FileId, size: nat, thumb: bool)

  function Total(files: seq<File>): nat {
    if files == [] then 0 else files[0].size + Total(files[1..])
  }

  // ----- The budget -----

  // How many of the oldest files go to take off this much.
  function Doomed(files: seq<File>, excess: int): (n: nat)
    ensures n <= |files|
  {
    if excess <= 0 || files == [] then 0 else 1 + Doomed(files[1..], excess - files[0].size)
  }

  // It is the shortest run of the oldest files whose removal brings the owner
  // within the limit: with it they are, and with any shorter one they are not.
  lemma {:induction false} ShortestPrefix(files: seq<File>, limit: nat, k: nat)
    ensures var n := Doomed(files, Total(files) - limit);
            && Total(files[n..]) <= limit
            && (k < n ==> Total(files[k..]) > limit)
  {
    if Total(files) > limit && files != [] {
      ShortestPrefix(files[1..], limit, if k > 0 then k - 1 else 0);
      var n := Doomed(files, Total(files) - limit);
      assert files[n..] == files[1..][n - 1..];
      if k > 0 && k < n {
        assert files[k..] == files[1..][k - 1..];
      }
      if k == 0 {
        assert files[0..] == files;
      }
    }
  }

  // Taking the oldest few and then counting on is counting at once.
  lemma {:induction false} DoomedGoesOn(files: seq<File>, excess: int, k: nat)
    requires k <= Doomed(files, excess)
    ensures Doomed(files, excess) == k + Doomed(files[k..], excess - Total(files[..k]))
    decreases k
  {
    if k > 0 {
      DoomedGoesOn(files[1..], excess - files[0].size, k - 1);
      assert files[k..] == files[1..][k - 1..] && files[..k][1..] == files[1..][..k - 1];
    } else {
      assert files[0..] == files;
    }
  }

  lemma {:induction false} TotalSplits(files: seq<File>, k: nat)
    requires k <= |files|
    ensures Total(files) == Total(files[..k]) + Total(files[k..])
    ensures |files| == 1 ==> Total(files) == files[0].size
    decreases k
  {
    if k > 0 {
      TotalSplits(files[1..], k - 1);
      assert files[k..] == files[1..][k - 1..] && files[..k][1..] == files[1..][..k - 1];
    } else {
      assert files[0..] == files;
    }
  }

  function KeysOf(files: seq<File>): set<Key> {
    set f, small: bool | f in files && (!small || f.thumb) :: Key(f.id, small)
  }

  // The files that stay, of every owner listed.
  function AfterSweep(files: map<Owner, seq<File>>, limit: nat): map<Owner, seq<File>> {
    map o | o in files :: RestOf(files[o], limit)
  }

  // Each owner's sent files, oldest first, and the bytes stored.
  class Files {
    var files: map<Owner, seq<File>>
    var blobs: set<Key>

    constructor (files: map<Owner, seq<File>>, blobs: set<Key>)
      ensures this.files == files && this.blobs == blobs
    {
      this.files, this.blobs := files, blobs;
    }

    method RemoveBytes(f: File)
      modifies this`blobs
      ensures blobs == old(blobs) - KeysOf([f])
    {
      blobs := blobs - {Key(f.id, false)};
      if f.thumb {
        blobs := blobs - {Key(f.id, true)};
      }
    }

    // One batch: of the oldest 500, the first ones that are needed.
    method Pick(rows: seq<File>, excess: int) returns (n: nat, left: int)
      ensures n == Doomed(rows, excess) && left == excess - Total(rows[..n])
    {
      n, left := 0, excess;
      assert rows[0..] == rows;
      for i := 0 to |rows|
        invariant n == i && left == excess - Total(rows[..i])
        invariant Doomed(rows, excess) == i + Doomed(rows[i..], left)
      {
        if left <= 0 {
          return;
        }
        TotalSplits(rows[..i + 1], i);
        assert rows[..i + 1][..i] == rows[..i] && rows[..i + 1][i..] == [rows[i]];
        assert rows[i..][1..] == rows[i + 1..];
        n := n + 1;
        left := left - rows[i].size;
      }
      assert rows[..|rows|] == rows;
    }

    // The rows go in one statement and their bytes after them.
    method DeleteOldest(o: Owner, n: nat)
      requires o in files && n <= |files[o]|
      modifies this
      ensures files == old(files)[o := old(files)[o][n..]]
      ensures blobs == old(blobs) - KeysOf(old(files)[o][..n])
    {
      var gone := files[o][..n];
      files := files[o := files[o][n..]];
      for i := 0 to n
        invariant files == old(files)[o := old(files)[o][n..]]
        invariant blobs == old(blobs) - KeysOf(gone[..i])
      {
        RemoveBytes(gone[i]);
        assert gone[..i + 1] == gone[..i] + [gone[i]];
        KeysOfMore(gone[..i], gone[i]);
      }
      assert gone[..n] == gone;
    }

    // One owner, in as many batches as it takes.
    method SweepOwner(o: Owner, limit: nat) returns (removed: nat)
      requires o in files
      modifies this
      ensures removed == Doomed(old(files)[o], Total(old(files)[o]) - limit)
      ensures files == old(files)[o := old(files)[o][removed..]]
      ensures blobs == old(blobs) - KeysOf(old(files)[o][..removed])
    {
      ghost var all := files[o];
      var excess: int := Total(files[o]) - limit;
      removed := 0;
      ghost var was := files;
      while excess > 0
        invariant removed <= |all| && files == was[o := all[removed..]]
        invariant blobs == old(blobs) - KeysOf(all[..removed])
        invariant Doomed(all, Total(all) - limit) == removed + Doomed(all[removed..], excess)
        decreases |all| - removed
      {
        var here := files[o];
        var rows := if |here| <= BATCH then here else here[..BATCH];
        var n, left := Pick(rows, excess);
        if n == 0 {
          break;
        }
        PrefixDoomed(here, excess, |rows|);
        DoomedGoesOn(here, excess, n);
        assert here[..n] == rows[..n];
        DeleteOldest(o, n);
        KeysOfPrefixes(all, removed, n);
        assert all[removed..][n..] == all[removed + n..];
        removed, excess := removed + n, left;
      }
      assert files[o] == all[removed..];
    }

    // Brings every owner listed under the budget. The list is of those over
    // it; a trial run only counts them, and no budget means no sweep.
    method SweepBudget(owners: seq<Owner>, limit: nat, dryRun: bool) returns (over: nat, removed: nat)
      requires Distinct(owners)
      requires limit > 0 ==> forall o :: o in owners <==> o in files && Total(files[o]) > limit
      modifies this
      ensures limit == 0 || dryRun ==> files == old(files) && blobs == old(blobs) && removed == 0
      ensures limit > 0 && !dryRun ==> files == AfterSweep(old(files), limit)
      ensures limit > 0 && !dryRun ==> blobs == Stored(old(blobs), old(files), owners, limit)
      ensures removed == RowsOf(old(files), owners) - RowsOf(files, owners)
      ensures over == if limit == 0 then 0 else |owners|
    {
      over, removed := 0, 0;
      if limit == 0 {
        return;
      }
      over := |owners|;
      if dryRun {
        return;
      }
      assert forall o <- owners :: o in files;
      removed := SweepOwners(owners, limit);
      AllSwept(old(files), owners, limit);
      RemovedRows(old(files), files, owners, limit);
    }

    method SweepOwners(owners: seq<Owner>, limit: nat) returns (removed: nat)
      requires Distinct(owners) && forall o <- owners :: o in files
      modifies this
      ensures files == Swept(old(files), owners, limit)
      ensures blobs == Stored(old(blobs), old(files), owners, limit)
      ensures removed == Removed(old(files), owners, limit)
    {
      removed := 0;
      ghost var was, kept := files, blobs;
      for i := 0 to |owners|
        invariant files == Swept(was, owners[..i], limit)
        invariant blobs == Stored(kept, was, owners[..i], limit)
        invariant removed == Removed(was, owners[..i], limit)
      {
        var o := owners[i];
        NextOwner(kept, was, owners, i, limit);
        var n := SweepOwner(o, limit);
        assert was[o][..n] == GoneOf(was[o], limit) && was[o][n..] == RestOf(was[o], limit);
        removed := removed + n;
      }
      assert owners[..|owners|] == owners;
    }
  }

  // The oldest files of an owner, that go, and the rest, that stay.
  function GoneOf(files: seq<File>, limit: nat): seq<File> {
    files[..Doomed(files, Total(files) - limit)]
  }

  function RestOf(files: seq<File>, limit: nat): seq<File> {
    files[Doomed(files, Total(files) - limit)..]
  }

  // How many rows these owners have.
  function RowsOf(files: map<Owner, seq<File>>, owners: seq<Owner>): nat {
    if owners == [] then 0
    else
      var o := owners[|owners| - 1];
      RowsOf(files, owners[..|owners| - 1]) + if o in files then |files[o]| else 0
  }

  function Removed(files: map<Owner, seq<File>>, owners: seq<Owner>, limit: nat): nat {
    if owners == [] then 0
    else
      var o := owners[|owners| - 1];
      Removed(files, owners[..|owners| - 1], limit) + if o in files then |GoneOf(files[o], limit)| else 0
  }

  lemma {:induction false} RemovedRows(was: map<Owner, seq<File>>, now: map<Owner, seq<File>>, owners: seq<Owner>,
                                       limit: nat)
    requires now.Keys == was.Keys && forall o <- owners :: o in was ==> now[o] == RestOf(was[o], limit)
    ensures Removed(was, owners, limit) == RowsOf(was, owners) - RowsOf(now, owners)
  {
    if owners != [] {
      var n := |owners| - 1;
      assert owners[n] in owners && forall o <- owners[..n] :: o in owners;
      RemovedRows(was, now, owners[..n], limit);
    }
  }

  // Rows and bytes once some owners have been swept.
  function Swept(files: map<Owner, seq<File>>, owners: seq<Owner>, limit: nat): map<Owner, seq<File>> {
    if owners == [] then files
    else
      var before, o := Swept(files, owners[..|owners| - 1], limit), owners[|owners| - 1];
      if o in files then before[o := RestOf(files[o], limit)] else before
  }

  function Stored(blobs: set<Key>, files: map<Owner, seq<File>>, owners: seq<Owner>, limit: nat): set<Key> {
    if owners == [] then blobs
    else
      var before, o := Stored(blobs, files, owners[..|owners| - 1], limit), owners[|owners| - 1];
      if o in files then before - KeysOf(GoneOf(files[o], limit)) else before
  }

  // Bytes are gone exactly when they were of a file gone.
  lemma {:induction false} StoredMeaning(blobs: set<Key>, files: map<Owner, seq<File>>, owners: seq<Owner>,
                                         limit: nat, k: Key)
    ensures k in Stored(blobs, files, owners, limit) <==>
            k in blobs && forall o <- owners :: o in files ==> k !in KeysOf(GoneOf(files[o], limit))
  {
    if owners != [] {
      var n := |owners| - 1;
      StoredMeaning(blobs, files, owners[..n], limit, k);
      assert owners == owners[..n] + [owners[n]];
    }
  }

  lemma {:induction false} SweptAt(files: map<Owner, seq<File>>, owners: seq<Owner>, limit: nat, o: Owner)
    ensures Swept(files, owners, limit).Keys == files.Keys
    ensures o in files ==> Swept(files, owners, limit)[o] == if o in owners then RestOf(files[o], limit) else files[o]
  {
    if owners != [] {
      var n := |owners| - 1;
      SweptAt(files, owners[..n], limit, o);
      assert owners == owners[..n] + [owners[n]];
    }
  }

  lemma NextOwner(blobs: set<Key>, files: map<Owner, seq<File>>, owners: seq<Owner>, i: nat, limit: nat)
    requires Distinct(owners) && i < |owners| && owners[i] in files
    ensures owners[i] in Swept(files, owners[..i], limit)
    ensures Swept(files, owners[..i], limit)[owners[i]] == files[owners[i]]
    ensures Swept(files, owners[..i + 1], limit) ==
            Swept(files, owners[..i], limit)[owners[i] := RestOf(files[owners[i]], limit)]
    ensures Stored(blobs, files, owners[..i + 1], limit) ==
            Stored(blobs, files, owners[..i], limit) - KeysOf(GoneOf(files[owners[i]], limit))
    ensures Removed(files, owners[..i + 1], limit) ==
            Removed(files, owners[..i], limit) + |GoneOf(files[owners[i]], limit)|
  {
    SweptAt(files, owners[..i], limit, owners[i]);
    assert owners[..i + 1][..i] == owners[..i];
  }

  lemma AllSwept(files: map<Owner, seq<File>>, owners: seq<Owner>, limit: nat)
    requires forall o :: o in owners <==> o in files && Total(files[o]) > limit
    ensures Swept(files, owners, limit) == AfterSweep(files, limit)
  {
    var swept := Swept(files, owners, limit);
    SweptAt(files, owners, limit, 0);
    forall o | o in files ensures swept[o] == AfterSweep(files, limit)[o] {
      SweptAt(files, owners, limit, o);
      if o !in owners { assert files[o][0..] == files[o]; }
    }
  }

  lemma KeysOfMore(files: seq<File>, f: File)
    ensures KeysOf(files + [f]) == KeysOf(files) + KeysOf([f])
  {
    forall k | k in KeysOf(files) + KeysOf([f]) ensures k in KeysOf(files + [f]) {
      if k in KeysOf(files) {
        var g :| g in files && k.id == g.id && (!k.small || g.thumb);
        assert g in files + [f];
      } else {
        assert f in files + [f];
      }
    }
  }

  lemma {:induction false} KeysOfPrefixes(all: seq<File>, k: nat, n: nat)
    requires k + n <= |all|
    ensures KeysOf(all[..k + n]) == KeysOf(all[..k]) + KeysOf(all[k..][..n])
    decreases n
  {
    if n == 0 {
      assert all[..k + 0] == all[..k] && KeysOf(all[k..][..0]) == {};
    } else {
      KeysOfPrefixes(all, k, n - 1);
      assert all[..k + n] == all[..k + n - 1] + [all[k + n - 1]];
      assert all[k..][..n] == all[k..][..n - 1] + [all[k + n - 1]];
      KeysOfMore(all[..k + n - 1], all[k + n - 1]);
      KeysOfMore(all[k..][..n - 1], all[k + n - 1]);
    }
  }

  // A batch takes no more than would be taken of the whole list.
  lemma {:induction false} PrefixDoomed(files: seq<File>, excess: int, m: nat)
    requires m <= |files|
    ensures Doomed(files[..m], excess) <= Doomed(files, excess)
    ensures m > 0 && Doomed(files[..m], excess) == 0 ==> Doomed(files, excess) == 0
    decreases |files|
  {
    if m > 0 && excess > 0 {
      PrefixDoomed(files[1..], excess - files[0].size, m - 1);
      assert files[..m][1..] == files[1..][..m - 1];
    }
  }

  // However many owners and batches there are, afterwards everyone is within
  // the budget, nobody has lost a file they could have kept, and those who
  // were within it have lost none.
  lemma BudgetKept(files: map<Owner, seq<File>>, limit: nat, o: Owner)
    requires o in files
    ensures var kept := AfterSweep(files, limit)[o];
            && Total(kept) <= limit
            && |kept| <= |files[o]| && kept == files[o][|files[o]| - |kept|..]
            && (forall k: nat | k < |files[o]| - |kept| :: Total(files[o][k..]) > limit)
            && (Total(files[o]) <= limit ==> kept == files[o])
  {
    var n := Doomed(files[o], Total(files[o]) - limit);
    ShortestPrefix(files[o], limit, 0);
    forall k: nat | k < n ensures Total(files[o][k..]) > limit {
      ShortestPrefix(files[o], limit, k);
    }
  }

  // The bytes deleted are those of the files removed, the small copies of
  // those that have one among them, and no others.
  lemma BytesGoWithTheirFiles(blobs: set<Key>, files: map<Owner, seq<File>>, owners: seq<Owner>, limit: nat, k: Key)
    requires forall o :: o in owners <==> o in files && Total(files[o]) > limit
    ensures k in Stored(blobs, files, owners, limit) <==>
            k in blobs &&
            forall o, f | o in files && f in files[o][..|files[o]| - |AfterSweep(files, limit)[o]|] ::
              k.id != f.id || (k.small && !f.thumb)
  {
    StoredMeaning(blobs, files, owners, limit, k);
    forall o | o in files ensures files[o][..|files[o]| - |AfterSweep(files, limit)[o]|] == GoneOf(files[o], limit) {
    }
    forall o | o in files && o !in owners ensures GoneOf(files[o], limit) == [] {
    }
    forall o | o in files
      ensures k in KeysOf(GoneOf(files[o], limit)) <==>
              exists f <- GoneOf(files[o], limit) :: k.id == f.id && (k.small ==> f.thumb)
    {
      assert k == Key(k.id, k.small);
    }
  }

  // Rows that stay keep their bytes: files have ids of their own, so deleting
  // one file's keys is not deleting another's.
  lemma OthersKeepTheirBytes(all: seq<File>, n: nat, blobs: set<Key>)
    requires n <= |all| && KeysOf(all) <= blobs
    requires forall i, j | 0 <= i < j < |all| :: all[i].id != all[j].id
    ensures KeysOf(all[n..]) <= blobs - KeysOf(all[..n])
  {
    forall k | k in KeysOf(all[n..]) ensures k in blobs && k !in KeysOf(all[..n]) {
      var f :| f in all[n..] && k.id == f.id && (!k.small || f.thumb);
      assert f in all;
      assert k in KeysOf(all);
    }
  }

  // ----- The window -----

  datatype Message = Message(id: MessageId, created: int, complete: bool)

  predicate Expired(m: Message, before: int) {
    m.complete && m.created < before
  }

  function Kept(messages: seq<Message>, before: int): seq<Message> {
    if messages == [] then []
    else (if Expired(messages[0], before) then [] else [messages[0]]) + Kept(messages[1..], before)
  }

  function Without(messages: seq<Message>, ids: set<MessageId>): seq<Message> {
    if messages == [] then []
    else (if messages[0].id in ids then [] else [messages[0]]) + Without(messages[1..], ids)
  }

  // The ids of the first so many expired messages.
  function FirstExpired(messages: seq<Message>, before: int, n: nat): set<MessageId> {
    if messages == [] || n == 0 then {}
    else if Expired(messages[0], before) then {messages[0].id} + FirstExpired(messages[1..], before, n - 1)
    else FirstExpired(messages[1..], before, n)
  }

  predicate UniqueIds(messages: seq<Message>) {
    forall i, j :: 0 <= i < j < |messages| ==> messages[i].id != messages[j].id
  }

  // A batch holds ids of expired messages only; fewer than asked for means it
  // holds them all.
  lemma {:induction false} BatchMeaning(messages: seq<Message>, before: int, n: nat)
    requires UniqueIds(messages)
    ensures var ids := FirstExpired(messages, before, n);
            && (forall id <- ids :: exists m <- messages :: m.id == id)
            && (forall m <- messages :: m.id in ids ==> Expired(m, before))
            && (|ids| < n ==> forall m <- messages :: Expired(m, before) ==> m.id in ids)
            && |ids| <= n
  {
    if messages != [] && n > 0 {
      var first, rest := messages[0], messages[1..];
      assert forall m <- rest :: m.id != first.id;
      var less := if Expired(first, before) then n - 1 else n;
      BatchMeaning(rest, before, less);
      var ids := FirstExpired(rest, before, less);
      assert first.id !in ids;
      assert forall m <- messages :: m == first || m in rest;
      assert first in messages && forall m <- rest :: m in messages;
    }
  }

  lemma {:induction false} WithoutMembers(messages: seq<Message>, ids: set<MessageId>)
    ensures forall m :: m in Without(messages, ids) <==> m in messages && m.id !in ids
    ensures UniqueIds(messages) ==> UniqueIds(Without(messages, ids))
  {
    if messages != [] {
      var first, rest := messages[0], messages[1..];
      WithoutMembers(rest, ids);
      assert messages == [first] + rest;
      if UniqueIds(messages) {
        assert forall m <- rest :: m.id != first.id;
      }
    }
  }

  lemma WithoutCons(m: Message, rest: seq<Message>, ids: set<MessageId>)
    ensures Without([m] + rest, ids) == (if m.id in ids then [] else [m]) + Without(rest, ids)
  {
    assert ([m] + rest)[1..] == rest;
  }

  lemma {:induction false} WithoutTwice(messages: seq<Message>, a: set<MessageId>, b: set<MessageId>)
    ensures Without(Without(messages, a), b) == Without(messages, a + b)
  {
    if messages != [] {
      WithoutTwice(messages[1..], a, b);
      if messages[0].id !in a {
        WithoutCons(messages[0], Without(messages[1..], a), b);
      } else {
        assert Without(messages, a) == Without(messages[1..], a);
      }
    }
  }

  function ExpiredIds(messages: seq<Message>, before: int): set<MessageId> {
    set m | m in messages && Expired(m, before) :: m.id
  }

  lemma {:induction false} WithoutExpired(messages: seq<Message>, ids: set<MessageId>, before: int)
    requires forall m <- messages :: m.id in ids <==> Expired(m, before)
    ensures Without(messages, ids) == Kept(messages, before)
  {
    if messages != [] {
      WithoutExpired(messages[1..], ids, before);
    }
  }

  // By their ids, exactly the expired messages go.
  lemma ExactlyTheExpired(messages: seq<Message>, before: int)
    requires UniqueIds(messages)
    ensures Without(messages, ExpiredIds(messages, before)) == Kept(messages, before)
  {
    forall m | m in messages ensures m.id in ExpiredIds(messages, before) <==> Expired(m, before) {
      if m.id in ExpiredIds(messages, before) {
        var x :| x in messages && Expired(x, before) && x.id == m.id;
        assert x == m;
      }
    }
    WithoutExpired(messages, ExpiredIds(messages, before), before);
  }

  lemma {:induction false} WithoutShrinks(messages: seq<Message>, ids: set<MessageId>, m: Message)
    ensures |Without(messages, ids)| <= |messages|
    ensures m in messages && m.id in ids ==> |Without(messages, ids)| < |messages|
  {
    if messages != [] {
      WithoutShrinks(messages[1..], ids, m);
    }
  }

  // What is left of files and bytes once some messages are gone.
  function MediaAfter(media: map<FileId, MessageId>, gone: set<MessageId>): map<FileId, MessageId> {
    map f | f in media && media[f] !in gone :: media[f]
  }

  function BlobsAfter(blobs: set<Key>, media: map<FileId, MessageId>, gone: set<MessageId>): set<Key> {
    set k | k in blobs && !(k.id in media && media[k.id] in gone)
  }

  lemma MoreGone(media: map<FileId, MessageId>, blobs: set<Key>, gone: set<MessageId>, ids: set<MessageId>)
    ensures var here := MediaAfter(media, gone);
            var files := set f | f in here && here[f] in ids;
            && here - files == MediaAfter(media, gone + ids)
            && (set k | k in BlobsAfter(blobs, media, gone) && k.id !in files) == BlobsAfter(blobs, media, gone + ids)
  {
  }

  // The window leaves the messages still being written and those not older than
  // it, in their order, and of files and bytes all but what hung on the rest.
  lemma WhatTheWindowLeaves(messages: seq<Message>, media: map<FileId, MessageId>, blobs: set<Key>, before: int)
    ensures var gone := ExpiredIds(messages, before);
            && (forall m :: m in Kept(messages, before) <==> m in messages && (!m.complete || before <= m.created))
            && Ordered(Kept(messages, before), messages)
            && (forall f :: f in MediaAfter(media, gone) <==>
                  f in media && forall m <- messages :: m.id == media[f] ==> !m.complete || before <= m.created)
            && (forall f <- MediaAfter(media, gone) :: MediaAfter(media, gone)[f] == media[f])
            && (forall k :: k in BlobsAfter(blobs, media, gone) <==>
                  k in blobs && (k.id in media ==> k.id in MediaAfter(media, gone)))
  {
    KeptAre(messages, before);
  }

  // One message comes before another.
  ghost predicate Before(messages: seq<Message>, a: Message, b: Message) {
    exists k, n :: 0 <= k < n < |messages| && messages[k] == a && messages[n] == b
  }

  ghost predicate Ordered(part: seq<Message>, whole: seq<Message>) {
    forall i, j | 0 <= i < j < |part| :: Before(whole, part[i], part[j])
  }

  lemma BeforeLonger(first: Message, rest: seq<Message>, a: Message, b: Message)
    requires Before(rest, a, b) || (a == first && b in rest)
    ensures Before([first] + rest, a, b)
  {
    var messages := [first] + rest;
    if Before(rest, a, b) {
      var k, n :| 0 <= k < n < |rest| && rest[k] == a && rest[n] == b;
      assert messages[k + 1] == a && messages[n + 1] == b;
    } else {
      var n :| 0 <= n < |rest| && rest[n] == b;
      assert messages[0] == a && messages[n + 1] == b;
    }
  }

  lemma {:induction false} KeptAre(messages: seq<Message>, before: int)
    ensures forall m :: m in Kept(messages, before) <==> m in messages && !Expired(m, before)
    ensures Ordered(Kept(messages, before), messages)
  {
    if messages != [] {
      var rest := messages[1..];
      KeptAre(rest, before);
      assert messages == [messages[0]] + rest;
      var part, kept := Kept(messages, before), Kept(rest, before);
      var skip := |part| - |kept|;
      forall i, j | 0 <= i < j < |part| ensures Before(messages, part[i], part[j]) {
        assert part[j] == kept[j - skip] && part[j] in kept;
        assert i >= skip ==> part[i] == kept[i - skip];
        BeforeLonger(messages[0], rest, part[i], part[j]);
      }
    }
  }

  class History {
    var messages: seq<Message>
    // The message each sent file hangs on.
    var media: map<FileId, MessageId>
    var blobs: set<Key>

    constructor (messages: seq<Message>, media: map<FileId, MessageId>, blobs: set<Key>)
      ensures this.messages == messages && this.media == media && this.blobs == blobs
    {
      this.messages, this.media, this.blobs := messages, media, blobs;
    }

    method RemoveBytes(files: set<FileId>)
      modifies this`blobs
      ensures blobs == set k | k in old(blobs) && k.id !in files
    {
      var todo := files;
      while todo != {}
        invariant todo <= files
        invariant blobs == set k | k in old(blobs) && k.id !in files - todo
      {
        var f: FileId :| f in todo;
        blobs := blobs - {Key(f, false)};
        blobs := blobs - {Key(f, true)};
        todo := todo - {f};
      }
    }

    // Expired messages, 500 at a time: their files' rows first, so that the
    // keys are known, then the messages, then the bytes.
    method SweepMessages(before: int)
      requires UniqueIds(messages)
      modifies this
      ensures messages == Kept(old(messages), before)
      ensures media == MediaAfter(old(media), ExpiredIds(old(messages), before))
      ensures blobs == BlobsAfter(old(blobs), old(media), ExpiredIds(old(messages), before))
    {
      ghost var was, had, kept := messages, media, blobs;
      ghost var gone: set<MessageId> := {};
      ghost var all := ExpiredIds(was, before);
      NoneWithout(was);
      while true
        invariant gone <= all && messages == Without(was, gone)
        invariant media == MediaAfter(had, gone) && blobs == BlobsAfter(kept, had, gone)
        decreases |messages|
      {
        var ids := FirstExpired(messages, before, BATCH);
        NextBatch(was, gone, ids, before);
        if ids == {} {
          assert gone + ids == gone;
          break;
        }
        MoreGone(had, kept, gone, ids);
        var files := set f | f in media && media[f] in ids;
        media := media - files;
        messages := Without(messages, ids);
        RemoveBytes(files);
        gone := gone + ids;
        if |ids| < BATCH {
          break;
        }
      }
      ExactlyTheExpired(was, before);
    }
  }

  // A batch is of expired messages still there, and a short one is the last.
  lemma {:induction false} NextBatch(was: seq<Message>, gone: set<MessageId>, ids: set<MessageId>, before: int)
    requires UniqueIds(was) && gone <= ExpiredIds(was, before)
    requires ids == FirstExpired(Without(was, gone), before, BATCH)
    ensures gone + ids <= ExpiredIds(was, before)
    ensures |ids| < BATCH ==> gone + ids == ExpiredIds(was, before)
    ensures Without(Without(was, gone), ids) == Without(was, gone + ids)
    ensures ids != {} ==> |Without(was, gone + ids)| < |Without(was, gone)|
  {
    var here := Without(was, gone);
    WithoutMembers(was, gone);
    BatchMeaning(here, before, BATCH);
    WithoutTwice(was, gone, ids);
    forall id | id in ids ensures id in ExpiredIds(was, before) {
      var m :| m in here && m.id == id;
      assert m in was;
    }
    if id :| id in ids {
      var m :| m in here && m.id == id;
      WithoutShrinks(here, ids, m);
    }
  }

  lemma {:induction false} NoneWithout(messages: seq<Message>)
    ensures Without(messages, {}) == messages
  {
    if messages != [] {
      NoneWithout(messages[1..]);
    }
  }
}
