// Reading an upload under a size limit (server/internal/media/reader.go, and
// the two loops of media/service.go that read through it).
module GuardedReading {
  import opened Wrappers

  type Byte = bv8

  // What a read comes back with besides its bytes.
  datatype Signal = More | End | Broken | TooLarge

  // How a source stops: at its end, or broken off; and whether it says so
  // together with its last bytes or only on the read after them. Readers may
  // do either.
  datatype Ending = Ending(broken: bool, eager: bool)

  datatype Result = Read(data: seq<Byte>) | Incomplete | OverLimit

  // Where bytes come from. How many each read gives is the source's choice.
  class Source {
    const data: seq<Byte>
    const ending: Ending
    var pos: nat

    ghost predicate Valid()
      reads this
    {
      pos <= |data|
    }

    constructor (data: seq<Byte>, ending: Ending)
      ensures Valid() && this.data == data && this.ending == ending && pos == 0
    {
      this.data, this.ending, pos := data, ending, 0;
    }

    method Read(room: nat) returns (got: seq<Byte>, signal: Signal)
      requires Valid()
      modifies this
      ensures Valid() && old(pos) <= pos && |got| <= room && got == data[old(pos)..pos]
      ensures room > 0 ==> got != [] || signal != More
      ensures pos < |data| ==> signal == More
      ensures signal != More ==> signal == if ending.broken then Broken else End
      ensures pos == |data| ==> (signal != More <==> got == [] || ending.eager)
    {
      var n: nat :| n <= room && n <= |data| - pos && (room > 0 && pos < |data| ==> n > 0);
      got := data[pos..pos + n];
      pos := pos + n;
      signal := More;
      if pos == |data| && (got == [] || ending.eager) {
        signal := if ending.broken then Broken else End;
      }
    }
  }

  // A reader with an allowance: it hands on what its source gives and fails
  // when that is more than was allowed.
  class GuardedReader {
    const r: Source
    var remaining: int
    var read: nat

    ghost predicate Valid()
      reads this, r
    {
      r.Valid() && read == r.pos
    }

    constructor (r: Source, limit: int)
      requires r.Valid() && r.pos == 0
      ensures Valid() && this.r == r && remaining == limit && read == 0
    {
      this.r, remaining, read := r, limit, 0;
    }

    method Read(room: nat) returns (got: seq<Byte>, signal: Signal)
      requires Valid()
      modifies this, r
      ensures Valid() && read == old(read) + |got| && remaining == old(remaining) - |got|
      ensures got == r.data[old(read)..read] && |got| <= room
      ensures signal == TooLarge <==> old(remaining) <= 0 || remaining < 0
      ensures old(remaining) <= 0 ==> got == []
      ensures signal != TooLarge && room > 0 ==> got != [] || signal != More
      ensures signal != TooLarge && read < |r.data| ==> signal == More
      ensures signal == End ==> !r.ending.broken
      ensures signal == Broken ==> r.ending.broken
      ensures signal != TooLarge && read == |r.data| ==> (signal != More <==> got == [] || r.ending.eager)
    {
      if remaining <= 0 {
        return [], TooLarge;
      }
      var asked := if room > remaining + 1 then remaining + 1 else room;
      got, signal := r.Read(asked);
      read := read + |got|;
      remaining := remaining - |got|;
      if remaining < 0 {
        signal := TooLarge;
      }
    }
  }

  // What reading a source under a limit comes to, however it splits its
  // reads: everything, when it is shorter than the limit. A source of exactly
  // the limit passes only if it reports its end with its last bytes, because
  // a reader that has no allowance left refuses to look for the end.
  function Outcome(data: seq<Byte>, ending: Ending, limit: int): Result {
    if limit <= 0 || |data| > limit || (|data| == limit && !ending.eager) then OverLimit
    else if ending.broken then Incomplete
    else Read(data)
  }

  // Reads to the end, with buffers of whatever size.
  method ReadAll(g: GuardedReader) returns (result: Result)
    requires g.Valid() && g.read == 0
    modifies g, g.r
    ensures g.Valid() && result == Outcome(g.r.data, g.r.ending, old(g.remaining))
    ensures result.Read? ==> g.read == |g.r.data|
  {
    var data: seq<Byte> := [];
    var signal := More;
    ghost var limit := g.remaining;
    while signal == More
      invariant g.Valid() && data == g.r.data[..g.read]
      invariant g.remaining == limit - g.read
      invariant g.remaining >= 0 || signal == TooLarge || g.read == 0
      invariant signal == More && g.read == |g.r.data| ==> g.read == 0 || !g.r.ending.eager
      invariant signal == TooLarge <==> Outcome(g.r.data, g.r.ending, limit).OverLimit? && signal != More
      invariant signal == End ==> g.read == |g.r.data| && !g.r.ending.broken
      invariant signal == Broken ==> g.read == |g.r.data| && g.r.ending.broken
      decreases signal == More, |g.r.data| - g.read
    {
      var room: nat :| room > 0;
      var got;
      got, signal := g.Read(room);
      data := data + got;
    }
    if signal == End {
      return Read(data);
    }
    if signal == Broken {
      return Incomplete;
    }
    return OverLimit;
  }

  // readLimited, which pictures are read whole by.
  method ReadLimited(r: Source, limit: int) returns (result: Result)
    requires r.Valid() && r.pos == 0
    modifies r
    ensures result == Outcome(r.data, r.ending, limit)
  {
    var g := new GuardedReader(r, limit);
    result := ReadAll(g);
  }

  // The copy to storage that everything else goes through: the size recorded
  // is the whole source's.
  method PutStream(r: Source, limit: int) returns (size: nat, stored: Option<seq<Byte>>)
    requires r.Valid() && r.pos == 0
    modifies r
    ensures stored.Some? <==> Outcome(r.data, r.ending, limit).Read?
    ensures stored.Some? ==> stored.value == r.data && size == |r.data| <= limit
  {
    var g := new GuardedReader(r, limit);
    var result := ReadAll(g);
    match result
    case Read(data) => return g.read, Some(data);
    case Incomplete => return 0, None;
    case OverLimit => return 0, None;
  }

  // A whole source of exactly the limit, which is within it, is called too
  // large exactly when it does not report its end with its last bytes.
  lemma ExactlyTheLimit(data: seq<Byte>, eager: bool)
    requires data != []
    ensures Outcome(data, Ending(false, eager), |data|) == OverLimit <==> !eager
  {
  }
}
