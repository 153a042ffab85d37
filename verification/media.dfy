// Uploads and the sweeps that delete them, as they share rows and bytes
// (server/internal/media/service.go, server/internal/retention/sweep.go). Any
// number of uploads and sweeps run at once, each a step at a time, and the
// server may stop between any two steps.
module MediaFiles {
  import opened Wrappers
  import opened GuardedReading

  datatype Kind = Image | Audio | Video | File

  const SNIFF_LEN: nat := 512

  function LimitFor(kind: Kind): nat {
    match kind
    case Image => 0x100_0000
    case Audio => 0x100_0000
    case Video => 0x400_0000
    case File => 0x400_0000
  }

  type Id = nat

  // Where a file's bytes are kept: the original, and the small copy.
  datatype Key = Key(id: Id, small: bool)

  // What somebody sends: its kind, as its first bytes tell it, and a source.
  datatype Upload = Upload(kind: Kind, data: seq<Byte>, ending: Ending)

  datatype Row = Row(key: Key, thumb: Option<Key>, size: nat, message: Option<nat>)

  // How far an upload has come: reading its source; its bytes stored; ready
  // to be recorded.
  datatype Phase = Receiving | Placed(size: nat) | Ready(size: nat, thumb: Option<Key>)

  // How recording a row went. A lost insert is one that was committed and yet
  // reported as failed.
  datatype Insert = Created | Refused | Lost

  // Everything kept, and what is in progress: uploads, and the keys some
  // sweep or some failed upload is about to delete. `begun` remembers what
  // each id was given to an upload for.
  datatype State = State(
    begun: map<Id, Upload>,
    jobs: map<Id, Phase>,
    rows: map<Id, Row>,
    blobs: map<Key, seq<Byte>>,
    doomed: set<Key>)

  datatype Step =
    | Begin(id: Id, upload: Upload)
    | Place(id: Id, ok: bool, left: Option<seq<Byte>>)
    | Thumb(id: Id, made: bool, bytes: Option<seq<Byte>>)
    | Record(id: Id, insert: Insert)
    | Claim(ids: set<Id>, message: nat)
    | DeleteRows(ids: set<Id>)
    | Drop(key: Key, ok: bool)
    | Crash

  const Empty := State(map[], map[], map[], map[], {})

  // ----- Steps -----

  // A new upload under an id never used before. An empty source, or one that
  // breaks off within the bytes that tell what it is, goes no further.
  function OnBegin(s: State, id: Id, u: Upload): State {
    if id in s.begun then s
    else if u.data == [] || (u.ending.broken && |u.data| < SNIFF_LEN) then s.(begun := s.begun[id := u])
    else s.(begun := s.begun[id := u], jobs := s.jobs[id := Receiving])
  }

  // An upload gives up: what it may have written is to be deleted.
  function Abandon(s: State, id: Id, keys: set<Key>): State {
    s.(jobs := s.jobs - {id}, doomed := s.doomed + keys)
  }

  function Leave(s: State, key: Key, left: Option<seq<Byte>>): State {
    if left.Some? then s.(blobs := s.blobs[key := left.value]) else s
  }

  // Reading the source under its kind's limit and storing it. A picture is
  // read whole before anything is stored; everything else is stored as it
  // arrives, so a source that turns out too large, or a store that fails, may
  // leave a part behind. `ok` is false when the store fails, or a picture has
  // too many pixels.
  function OnPlace(s: State, id: Id, ok: bool, left: Option<seq<Byte>>): State
    requires id in s.jobs ==> id in s.begun
  {
    if id !in s.jobs || !s.jobs[id].Receiving? then s
    else
      var u := s.begun[id];
      var key := Key(id, false);
      var whole := Outcome(u.data, u.ending, LimitFor(u.kind)).Read?;
      if whole && ok then
        var phase := if u.kind.Image? then Placed(|u.data|) else Ready(|u.data|, None);
        s.(blobs := s.blobs[key := u.data], jobs := s.jobs[id := phase])
      else if u.kind.Image? && !whole then Abandon(s, id, {key})
      else Abandon(Leave(s, key, left), id, {key})
  }

  // A picture's small copy. Failing to make or to store one is not fatal, but
  // a store that fails may leave bytes that nothing records.
  function OnThumb(s: State, id: Id, made: bool, bytes: Option<seq<Byte>>): State {
    if id !in s.jobs || !s.jobs[id].Placed? then s
    else
      var key := Key(id, true);
      var after := Leave(s, key, bytes);
      var thumb := if made && bytes.Some? then Some(key) else None;
      after.(jobs := after.jobs[id := Ready(s.jobs[id].size, thumb)])
  }

  function OwnKeys(id: Id, thumb: Option<Key>): set<Key> {
    {Key(id, false)} + if thumb.Some? then {thumb.value} else {}
  }

  // Recording the row, the upload's last step. If that fails the bytes go.
  function OnRecord(s: State, id: Id, insert: Insert): State {
    if id !in s.jobs || !s.jobs[id].Ready? then s
    else
      var job := s.jobs[id];
      var row := Row(Key(id, false), job.thumb, job.size, None);
      if job.size > 0 && insert == Created then
        s.(rows := s.rows[id := row], jobs := s.jobs - {id})
      else if job.size > 0 && insert == Lost then
        Abandon(s.(rows := s.rows[id := row]), id, OwnKeys(id, job.thumb))
      else Abandon(s, id, OwnKeys(id, job.thumb))
  }

  function OnClaim(s: State, ids: set<Id>, message: nat): State {
    s.(rows := map id | id in s.rows ::
      if id in ids && s.rows[id].message.None? then s.rows[id].(message := Some(message)) else s.rows[id])
  }

  // Any sweep's delete statement: the rows are gone at once, and their keys
  // come back to be deleted one by one.
  function OnDeleteRows(s: State, ids: set<Id>): State {
    var keys := set id, k | id in ids && id in s.rows && k in OwnKeys(id, s.rows[id].thumb) :: k;
    s.(rows := s.rows - ids, doomed := s.doomed + keys)
  }

  // Deleting one key; a failure is only logged.
  function OnDrop(s: State, key: Key, ok: bool): State {
    if key !in s.doomed then s
    else s.(doomed := s.doomed - {key}, blobs := if ok then s.blobs - {key} else s.blobs)
  }

  // The server stops: everything in progress is forgotten.
  function OnCrash(s: State): State {
    s.(jobs := map[], doomed := {})
  }

  // Every upload in progress was begun.
  predicate Begun(s: State) {
    && s.jobs.Keys <= s.begun.Keys
    && s.rows.Keys <= s.begun.Keys
  }

  function Next(s: State, step: Step): (after: State)
    requires Begun(s)
    ensures Begun(after)
  {
    match step
    case Begin(id, u) => OnBegin(s, id, u)
    case Place(id, ok, left) => OnPlace(s, id, ok, left)
    case Thumb(id, made, bytes) => OnThumb(s, id, made, bytes)
    case Record(id, insert) => OnRecord(s, id, insert)
    case Claim(ids, message) => OnClaim(s, ids, message)
    case DeleteRows(ids) => OnDeleteRows(s, ids)
    case Drop(key, ok) => OnDrop(s, key, ok)
    case Crash => OnCrash(s)
  }

  function Run(s: State, steps: seq<Step>): State
    requires Begun(s)
    decreases |steps|
  {
    if steps == [] then s else Run(Next(s, steps[0]), steps[1..])
  }

  // ----- Every row has its bytes -----

  // The bytes stored for an id are the whole of what was sent for it, which
  // was within its kind's limit.
  predicate Whole(s: State, id: Id, size: nat)
    requires id in s.begun
  {
    var u := s.begun[id];
    && Outcome(u.data, u.ending, LimitFor(u.kind)) == Read(u.data)
    && 0 < |u.data| == size <= LimitFor(u.kind)
    && Key(id, false) in s.blobs && s.blobs[Key(id, false)] == u.data
  }

  predicate SmallCopy(s: State, id: Id, thumb: Option<Key>) {
    thumb.Some? ==> thumb.value == Key(id, true) && thumb.value in s.blobs
  }

  predicate RowKept(s: State, id: Id)
    requires id in s.rows && id in s.begun
  {
    && s.rows[id].key == Key(id, false)
    && Whole(s, id, s.rows[id].size)
    && SmallCopy(s, id, s.rows[id].thumb)
  }

  predicate JobKept(s: State, id: Id)
    requires id in s.jobs && id in s.begun
  {
    match s.jobs[id]
    case Receiving => s.begun[id].data != []
    case Placed(size) => Whole(s, id, size)
    case Ready(size, thumb) => Whole(s, id, size) && SmallCopy(s, id, thumb)
  }

  // What holds between any two steps: rows and unfinished uploads have their
  // bytes, nobody is about to delete them, and no id is both.
  ghost predicate Inv(s: State) {
    && Begun(s)
    && s.rows.Keys !! s.jobs.Keys
    && (forall id <- s.rows :: RowKept(s, id))
    && (forall id <- s.jobs :: JobKept(s, id))
    && (forall k <- s.doomed :: k.id in s.begun && k.id !in s.rows && k.id !in s.jobs)
  }

  lemma BeginKeepsInv(s: State, id: Id, u: Upload)
    requires Inv(s)
    ensures Inv(OnBegin(s, id, u))
  {
  }

  // Steps that touch one unfinished upload and its own keys.
  lemma OthersKept(s: State, after: State, id: Id)
    requires Inv(s) && id in s.jobs
    requires after.begun == s.begun && after.rows == s.rows && after.jobs.Keys <= s.jobs.Keys
    requires forall x <- after.jobs :: x != id ==> after.jobs[x] == s.jobs[x]
    requires forall k <- s.blobs :: k.id != id ==> k in after.blobs && after.blobs[k] == s.blobs[k]
    requires id in after.jobs ==> JobKept(after, id)
    requires forall k <- after.doomed :: k in s.doomed || (k.id == id && id !in after.jobs)
    ensures Inv(after)
  {
    forall x <- after.rows ensures RowKept(after, x) {
      assert RowKept(s, x);
    }
    forall x <- after.jobs ensures JobKept(after, x) {
      if x != id { assert JobKept(s, x); }
    }
  }

  lemma PlaceKeepsInv(s: State, id: Id, ok: bool, left: Option<seq<Byte>>)
    requires Inv(s)
    ensures Inv(OnPlace(s, id, ok, left))
  {
    if id in s.jobs && s.jobs[id].Receiving? {
      assert JobKept(s, id);
      OthersKept(s, OnPlace(s, id, ok, left), id);
    }
  }

  lemma ThumbKeepsInv(s: State, id: Id, made: bool, bytes: Option<seq<Byte>>)
    requires Inv(s)
    ensures Inv(OnThumb(s, id, made, bytes))
  {
    if id in s.jobs && s.jobs[id].Placed? {
      assert JobKept(s, id);
      OthersKept(s, OnThumb(s, id, made, bytes), id);
    }
  }

  lemma RecordKeepsInv(s: State, id: Id, insert: Insert)
    requires Inv(s) && insert != Lost
    ensures Inv(OnRecord(s, id, insert))
  {
  }

  lemma DeleteKeepsInv(s: State, ids: set<Id>)
    requires Inv(s)
    ensures Inv(OnDeleteRows(s, ids))
  {
  }

  lemma DropKeepsInv(s: State, key: Key, ok: bool)
    requires Inv(s)
    ensures Inv(OnDrop(s, key, ok))
  {
  }

  lemma {:induction false} RunKeepsInv(s: State, steps: seq<Step>)
    requires Inv(s) && forall step <- steps :: !(step.Record? && step.insert == Lost)
    ensures Inv(Run(s, steps))
    decreases |steps|
  {
    if steps != [] {
      var step := steps[0];
      assert step in steps;
      match step {
        case Begin(id, u) => BeginKeepsInv(s, id, u);
        case Place(id, ok, left) => PlaceKeepsInv(s, id, ok, left);
        case Thumb(id, made, bytes) => ThumbKeepsInv(s, id, made, bytes);
        case Record(id, insert) => RecordKeepsInv(s, id, insert);
        case Claim(ids, message) =>
        case DeleteRows(ids) => DeleteKeepsInv(s, ids);
        case Drop(key, ok) => DropKeepsInv(s, key, ok);
        case Crash =>
      }
      RunKeepsInv(Next(s, step), steps[1..]);
    }
  }

  // Whatever uploads, sweeps and crashes do, at every point each row's key
  // and small copy have bytes, its bytes and its size are the whole of its
  // source, and no source over sixteen megabytes, or sixty-four for videos and
  // other files, nor one that is empty or broke off, ever has a row. The one
  // thing asked is that a failed insert left no row.
  lemma RowsHaveTheirBytes(steps: seq<Step>, id: Id)
    requires forall step <- steps :: !(step.Record? && step.insert == Lost)
    ensures var s := Run(Empty, steps);
            id in s.rows ==>
              && id in s.begun && !s.begun[id].ending.broken
              && var u, row, key := s.begun[id], s.rows[id], Key(id, false);
              && row.key == key && key in s.blobs && s.blobs[key] == u.data && row.size == |u.data|
              && 0 < row.size <= (if u.kind.Image? || u.kind.Audio? then 16_777_216 else 67_108_864)
              && (row.thumb.Some? ==> row.thumb.value == Key(id, true) && Key(id, true) in s.blobs)
  {
    RunKeepsInv(Empty, steps);
    assert id in Run(Empty, steps).rows ==> RowKept(Run(Empty, steps), id);
  }

  // A claim takes every unclaimed file it names and no other; a deletion takes
  // every row it names, all of whose keys are then to be deleted, and no other.
  lemma ClaimsAndDeletionsTake(s: State, ids: set<Id>, message: nat, id: Id)
    requires Inv(s) && id in s.rows
    ensures var row, claimed, deleted := s.rows[id], Next(s, Claim(ids, message)), Next(s, DeleteRows(ids));
            && id in claimed.rows && claimed.rows[id] ==
               (if id in ids && row.message.None? then row.(message := Some(message)) else row)
            && (id in deleted.rows <==> id !in ids) && (id in deleted.rows ==> deleted.rows[id] == row)
            && (id in ids ==> Key(id, false) in deleted.doomed)
            && (id in ids && row.thumb.Some? ==> row.thumb.value in deleted.doomed)
            && s.doomed <= deleted.doomed && claimed.blobs == s.blobs == deleted.blobs
  {
    var keys := OwnKeys(id, s.rows[id].thumb);
    assert Key(id, false) in keys && (s.rows[id].thumb.Some? ==> s.rows[id].thumb.value in keys);
  }

  // Which message carries a file is settled once: a later claim of the same
  // file changes nothing while the row lives.
  lemma ClaimedOnce(s: State, step: Step, id: Id)
    requires Inv(s) && id in s.rows && s.rows[id].message.Some?
    ensures id in Next(s, step).rows ==> Next(s, step).rows[id] == s.rows[id]
  {
    if step.Record? && step.id == id {
      assert id !in s.jobs;
    }
  }

  // When an insert's answer is not true the promise fails at once: a committed
  // row whose insert was reported as failed loses its bytes to the upload's
  // own cleaning up.
  lemma LostInsertLosesTheBytes(s: State, id: Id)
    requires Inv(s) && id in s.jobs && s.jobs[id].Ready?
    ensures var after := Next(Next(s, Record(id, Lost)), Drop(Key(id, false), true));
            id in after.rows && after.rows[id].key !in after.blobs
  {
    var lost := Next(s, Record(id, Lost));
    assert JobKept(s, id);
    assert Key(id, false) in lost.doomed;
  }

  predicate Honest(steps: seq<Step>) {
    forall step <- steps :: !(step.Record? && step.insert == Lost)
  }

  ghost predicate AllKept(s: State) {
    forall id <- s.rows :: id in s.begun && RowKept(s, id)
  }

  lemma RunTwo(s: State, a: Step, b: Step)
    requires Begun(s)
    ensures Run(s, [a, b]) == Next(Next(s, a), b)
  {
    assert [a, b][1..] == [b];
    assert Run(Next(s, a), [b]) == Next(Next(s, a), b);
  }

  lemma {:induction false} RunConcat(s: State, a: seq<Step>, b: seq<Step>)
    requires Begun(s)
    ensures Begun(Run(s, a)) && Run(s, a + b) == Run(Run(s, a), b)
    decreases |a|
  {
    if a == [] {
      assert a + b == b;
    } else {
      assert (a + b)[1..] == a[1..] + b;
      RunConcat(Next(s, a[0]), a[1..], b);
    }
  }

  // And whatever has gone before, an upload below its limit that nothing fails
  // is recorded whole, a picture with its small copy if one is made.
  lemma UploadGoesThrough(steps: seq<Step>, id: Id, u: Upload, made: bool, bytes: Option<seq<Byte>>)
    requires Honest(steps) && id !in Run(Empty, steps).begun
    requires u.data != [] && !u.ending.broken
    requires |u.data| < if u.kind.Image? || u.kind.Audio? then 16_777_216 else 67_108_864
    ensures var s := Run(Empty, steps);
            Begun(s) &&
            var after := Run(s, [Begin(id, u), Place(id, true, None), Thumb(id, made, bytes), Record(id, Created)]);
            var thumb := if u.kind.Image? && made && bytes.Some? then Some(Key(id, true)) else None;
            && after.rows == s.rows[id := Row(Key(id, false), thumb, |u.data|, None)]
            && Key(id, false) in after.blobs && after.blobs[Key(id, false)] == u.data
            && (thumb.Some? ==> Key(id, true) in after.blobs && after.blobs[Key(id, true)] == bytes.value)
  {
    RunKeepsInv(Empty, steps);
    var s := Run(Empty, steps);
    var first, second := [Begin(id, u), Place(id, true, None)], [Thumb(id, made, bytes), Record(id, Created)];
    assert first + second == [Begin(id, u), Place(id, true, None), Thumb(id, made, bytes), Record(id, Created)];
    RunConcat(s, first, second);
    RunTwo(s, Begin(id, u), Place(id, true, None));
    RunTwo(Run(s, first), Thumb(id, made, bytes), Record(id, Created));
    IsPlaced(s, id, u);
    IsRecorded(Run(s, first), id, u, made, bytes);
  }

  lemma IsPlaced(s: State, id: Id, u: Upload)
    requires Begun(s) && id !in s.begun && u.data != [] && !u.ending.broken && |u.data| < LimitFor(u.kind)
    ensures var after := Next(Next(s, Begin(id, u)), Place(id, true, None));
            && id in after.jobs
            && after.jobs[id] == (if u.kind.Image? then Placed(|u.data|) else Ready(|u.data|, None))
            && after.rows == s.rows && after.blobs == s.blobs[Key(id, false) := u.data]
  {
  }

  lemma IsRecorded(s: State, id: Id, u: Upload, made: bool, bytes: Option<seq<Byte>>)
    requires Begun(s) && id in s.jobs && u.data != []
    requires s.jobs[id] == if u.kind.Image? then Placed(|u.data|) else Ready(|u.data|, None)
    ensures var after := Next(Next(s, Thumb(id, made, bytes)), Record(id, Created));
            var thumb := if u.kind.Image? && made && bytes.Some? then Some(Key(id, true)) else None;
            && after.rows == s.rows[id := Row(Key(id, false), thumb, |u.data|, None)]
            && after.blobs == if u.kind.Image? && bytes.Some? then s.blobs[Key(id, true) := bytes.value] else s.blobs
  {
  }

  // An empty source, one that breaks off in its first 512 bytes, and a picture
  // that is too large or breaks off anywhere, leave nothing stored, not even a
  // part.
  lemma RefusedBeforeStoring(s: State, id: Id, u: Upload, ok: bool, left: Option<seq<Byte>>)
    requires Begun(s) && id !in s.begun && id !in s.jobs
    requires || u.data == [] || (u.ending.broken && (|u.data| < 512 || u.kind.Image?))
             || (u.kind.Image? && |u.data| > 16_777_216)
    ensures var begun := Next(s, Begin(id, u));
            var placed := Next(begun, Place(id, ok, left));
            && (u.data == [] || (u.ending.broken && |u.data| < 512) <==> id !in begun.jobs)
            && placed.blobs == s.blobs && placed.rows == s.rows && id !in placed.jobs
  {
  }

  // One file of one byte, up to being recorded, and what a lost insert and
  // its cleaning up make of it.
  const OneByte := Upload(File, [0], Ending(false, true))
  const Uploaded := [Begin(0, OneByte), Place(0, true, None)]
  const LostAndCleaned := [Record(0, Lost), Drop(Key(0, false), true)]

  lemma LostRun()
    ensures !AllKept(Run(Empty, Uploaded + LostAndCleaned))
  {
    RunKeepsInv(Empty, Uploaded);
    RunTwo(Empty, Begin(0, OneByte), Place(0, true, None));
    var s := Run(Empty, Uploaded);
    assert 0 in s.jobs && s.jobs[0].Ready?;
    RunConcat(Empty, Uploaded, LostAndCleaned);
    RunTwo(s, Record(0, Lost), Drop(Key(0, false), true));
    LostInsertLosesTheBytes(s, 0);
  }

  // So over all runs every row has its bytes exactly when a failed insert
  // never left a row.
  lemma BytesKeptExactly(lost: bool)
    ensures (forall steps :: lost || Honest(steps) ==> AllKept(Run(Empty, steps))) <==> !lost
  {
    if lost {
      LostRun();
    } else {
      forall steps | Honest(steps) ensures AllKept(Run(Empty, steps)) {
        RunKeepsInv(Empty, steps);
      }
    }
  }

  // ----- Nothing is left behind -----

  // A step at which nothing is stranded: no crash, no deletion that failed,
  // no small copy half stored.
  predicate Tidy(step: Step) {
    match step
    case Crash => false
    case Drop(_, ok) => ok
    case Thumb(_, made, bytes) => made || bytes.None?
    case Record(_, insert) => insert != Lost
    case Begin(_, _) => true
    case Place(_, _, _) => true
    case Claim(_, _) => true
    case DeleteRows(_) => true
  }

  // Whose a key is: a row's, an unfinished upload's, or about to be deleted.
  predicate Accounted(s: State, k: Key) {
    || k in s.doomed
    || (k.id in s.rows && k in OwnKeys(k.id, s.rows[k.id].thumb))
    || (k.id in s.jobs && match s.jobs[k.id]
                          case Receiving => false
                          case Placed(_) => !k.small
                          case Ready(_, thumb) => k in OwnKeys(k.id, thumb))
  }

  // Every stored key is accounted for, and an id not begun has none.
  ghost predicate NoLitter(s: State) {
    && Inv(s)
    && (forall k <- s.blobs :: k.id in s.begun && Accounted(s, k))
  }

  lemma PlaceLeavesNone(s: State, id: Id, ok: bool, left: Option<seq<Byte>>)
    requires NoLitter(s)
    ensures NoLitter(OnPlace(s, id, ok, left))
  {
    PlaceKeepsInv(s, id, ok, left);
    var after := OnPlace(s, id, ok, left);
    forall k <- after.blobs ensures k.id in after.begun && Accounted(after, k) {
      if k.id != id { assert Accounted(s, k); }
    }
  }

  lemma ThumbLeavesNone(s: State, id: Id, made: bool, bytes: Option<seq<Byte>>)
    requires NoLitter(s) && (made || bytes.None?)
    ensures NoLitter(OnThumb(s, id, made, bytes))
  {
    ThumbKeepsInv(s, id, made, bytes);
    var after := OnThumb(s, id, made, bytes);
    forall k <- after.blobs ensures k.id in after.begun && Accounted(after, k) {
      if k.id != id { assert Accounted(s, k); }
    }
  }

  lemma RecordLeavesNone(s: State, id: Id, insert: Insert)
    requires NoLitter(s) && insert != Lost
    ensures NoLitter(OnRecord(s, id, insert))
  {
    RecordKeepsInv(s, id, insert);
    var after := OnRecord(s, id, insert);
    forall k <- after.blobs ensures k.id in after.begun && Accounted(after, k) {
      assert Accounted(s, k);
    }
  }

  lemma DeleteLeavesNone(s: State, ids: set<Id>)
    requires NoLitter(s)
    ensures NoLitter(OnDeleteRows(s, ids))
  {
    DeleteKeepsInv(s, ids);
    var after := OnDeleteRows(s, ids);
    forall k <- s.blobs ensures Accounted(after, k) {
      if k.id in ids && k.id in s.rows && k in OwnKeys(k.id, s.rows[k.id].thumb) {
        assert k in after.doomed;
      }
    }
  }

  lemma BeginLeavesNone(s: State, id: Id, u: Upload)
    requires NoLitter(s)
    ensures NoLitter(OnBegin(s, id, u))
  {
    BeginKeepsInv(s, id, u);
    var after := OnBegin(s, id, u);
    forall k <- after.blobs ensures Accounted(after, k) {
      assert Accounted(s, k);
    }
  }

  lemma ClaimLeavesNone(s: State, ids: set<Id>, message: nat)
    requires NoLitter(s)
    ensures NoLitter(OnClaim(s, ids, message))
  {
    var after := OnClaim(s, ids, message);
    forall k <- after.blobs ensures Accounted(after, k) {
      assert Accounted(s, k);
    }
  }

  lemma DropLeavesNone(s: State, key: Key)
    requires NoLitter(s)
    ensures NoLitter(OnDrop(s, key, true))
  {
    DropKeepsInv(s, key, true);
    var after := OnDrop(s, key, true);
    forall k <- after.blobs ensures Accounted(after, k) {
      assert Accounted(s, k);
    }
  }

  lemma TidyStepKeeps(s: State, step: Step)
    requires NoLitter(s) && Tidy(step)
    ensures NoLitter(Next(s, step))
  {
    match step {
      case Begin(id, u) => BeginLeavesNone(s, id, u);
      case Place(id, ok, left) => PlaceLeavesNone(s, id, ok, left);
      case Thumb(id, made, bytes) => ThumbLeavesNone(s, id, made, bytes);
      case Record(id, insert) => RecordLeavesNone(s, id, insert);
      case Claim(ids, message) => ClaimLeavesNone(s, ids, message);
      case DeleteRows(ids) => DeleteLeavesNone(s, ids);
      case Drop(key, ok) => DropLeavesNone(s, key);
      case Crash =>
    }
  }

  lemma {:induction false} TidyRunKeeps(s: State, steps: seq<Step>)
    requires NoLitter(s) && forall step <- steps :: Tidy(step)
    ensures NoLitter(Run(s, steps))
    decreases |steps|
  {
    if steps != [] {
      TidyStepKeeps(s, steps[0]);
      TidyRunKeeps(Next(s, steps[0]), steps[1..]);
    }
  }

  // The keys the rows name.
  function Named(s: State): set<Key> {
    set id, k | id in s.rows && k in OwnKeys(id, s.rows[id].thumb) :: k
  }

  lemma StoredIsNamed(s: State, k: Key)
    requires NoLitter(s) && s.jobs == map[] && s.doomed == {} && k in s.blobs
    ensures k in Named(s)
  {
    assert Accounted(s, k);
  }

  lemma NamedIsStored(s: State, k: Key)
    requires Inv(s) && k in Named(s)
    ensures k in s.blobs
  {
    var id :| id in s.rows && k in OwnKeys(id, s.rows[id].thumb);
    assert RowKept(s, id);
  }

  // In a run where nothing is stranded, once every upload has ended and every
  // deletion has been done, what is stored is exactly what the rows name.
  lemma NothingLeftBehind(steps: seq<Step>)
    requires forall step <- steps :: Tidy(step)
    requires var s := Run(Empty, steps); s.jobs == map[] && s.doomed == {}
    ensures var s := Run(Empty, steps); s.blobs.Keys == Named(s)
  {
    TidyRunKeeps(Empty, steps);
    var s := Run(Empty, steps);
    forall k ensures k in s.blobs.Keys <==> k in Named(s) {
      if k in s.blobs { StoredIsNamed(s, k); }
      if k in Named(s) { NamedIsStored(s, k); }
    }
  }

  // ----- The same, as the service's own calls -----

  // The table and the store, with nobody else at work.
  class Library {
    var rows: map<Id, Row>
    var blobs: map<Key, seq<Byte>>

    constructor ()
      ensures rows == map[] && blobs == map[]
    {
      rows, blobs := map[], map[];
    }

    method Delete(key: Key)
      modifies this`blobs
      ensures blobs == old(blobs) - {key}
    {
      blobs := blobs - {key};
    }

    method Discard(key: Key, thumb: Option<Key>)
      modifies this`blobs
      ensures blobs == old(blobs) - {key} - if thumb.Some? then {thumb.value} else {}
    {
      Delete(key);
      if thumb.Some? {
        Delete(thumb.value);
      }
    }

    // One upload whose first bytes have told its kind and been put back in
    // front of the rest. `stores` says whether the store takes the file,
    // `small` is the copy made of a picture, `records` whether the insert
    // succeeds.
    method Upload(id: Id, kind: Kind, r: Source, stores: bool, small: Option<seq<Byte>>, records: bool)
      returns (row: Option<Row>)
      requires r.Valid() && r.pos == 0 && id !in rows
      requires Key(id, false) !in blobs && Key(id, true) !in blobs
      modifies this, r
      ensures row.Some? <==> stores && records && r.data != [] && Outcome(r.data, r.ending, LimitFor(kind)).Read?
      ensures row.Some? ==> rows == old(rows)[id := row.value] && row.value.size == |r.data|
      ensures row.Some? ==> row.value.key == Key(id, false) && (row.value.thumb.Some? <==> kind.Image? && small.Some?)
      ensures row.Some? ==> blobs == if row.value.thumb.Some?
                                     then old(blobs)[Key(id, false) := r.data][Key(id, true) := small.value]
                                     else old(blobs)[Key(id, false) := r.data]
      ensures row.Some? ==> |r.data| <= if kind.Image? || kind.Audio? then 16_777_216 else 67_108_864
      ensures row.None? ==> rows == old(rows) && blobs == old(blobs)
    {
      var key, thumb := Key(id, false), None;
      var size, stored := PutStream(r, LimitFor(kind));
      if stored.None? || !stores {
        Discard(key, None);
        return None;
      }
      blobs := blobs[key := stored.value];
      if kind.Image? && small.Some? {
        thumb := Some(Key(id, true));
        blobs := blobs[thumb.value := small.value];
      }
      if size == 0 || !records {
        Discard(key, thumb);
        return None;
      }
      row := Some(Row(key, thumb, size, None));
      rows := rows[id := row.value];
    }

    // Removes uploads no message and no profile claimed: the rows at once,
    // then their bytes one file after another.
    method SweepUnclaimed(victims: seq<Id>) returns (count: nat)
      requires Distinct(victims)
      requires forall id <- victims :: id in rows && rows[id].message.None?
      requires forall id <- rows :: rows[id].key == Key(id, false) && rows[id].thumb in {None, Some(Key(id, true))}
      modifies this
      ensures count == |victims|
      ensures rows == old(rows) - (set id: Id | id in victims)
      ensures forall k :: k in blobs <==>
                k in old(blobs) && !(k.id in victims && k in OwnKeys(k.id, old(rows)[k.id].thumb))
      ensures forall k <- blobs :: blobs[k] == old(blobs)[k]
    {
      var was: map<Id, Row> := rows;
      var files := seq(|victims|, i requires 0 <= i < |victims| => (was[victims[i]].key, was[victims[i]].thumb));
      rows := rows - (set id: Id | id in victims);
      for i := 0 to |files|
        invariant rows == was - (set id: Id | id in victims)
        invariant forall k :: k in blobs <==>
                    k in old(blobs) && !(k.id in victims[..i] && k in OwnKeys(k.id, was[k.id].thumb))
        invariant forall k <- blobs :: blobs[k] == old(blobs)[k]
      {
        Discard(files[i].0, files[i].1);
        assert victims[..i + 1] == victims[..i] + [victims[i]];
      }
      assert victims[..|files|] == victims;
      count := |files|;
    }
  }
}
