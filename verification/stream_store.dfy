// The growing text of streamed messages, kept in Redis
// (server/internal/conversations/streams.go).
//
// Each command the store sends is one atomic step of the Redis server: the
// append script because scripts are, the others because they are sent as one
// transaction or are one command.
module StreamStore {
  import opened Wrappers

  type Id = nat

  // A Unicode scalar value. The bytes the script measures are the UTF-8 form
  // of a sequence of these.
  type Rune = r: int | 0 <= r < 0xD800 || 0xE000 <= r < 0x11_0000
  type Text = seq<Rune>

  const TEXT_MAX_LEN := 8000
  // Four bytes for every character allowed.
  const STREAM_MAX_BYTES := TEXT_MAX_LEN * 4
  // Ten minutes, in milliseconds.
  const STREAM_TTL := 600_000

  // Section 3 of RFC 3629: one to four octets, by range.
  function Width(r: Rune): (n: nat)
    ensures 1 <= n <= 4
  {
    if r < 0x80 then 1 else if r < 0x800 then 2 else if r < 0x1_0000 then 3 else 4
  }

  function ByteLen(t: Text): nat {
    if t == [] then 0 else Width(t[0]) + ByteLen(t[1..])
  }

  lemma {:induction false} ByteLenConcat(a: Text, b: Text)
    ensures ByteLen(a + b) == ByteLen(a) + ByteLen(b)
  {
    if a == [] {
      assert a + b == b;
    } else {
      assert (a + b)[1..] == a[1..] + b;
      ByteLenConcat(a[1..], b);
    }
  }

  // Between one and four octets a character.
  lemma {:induction false} ByteLenBounds(t: Text)
    ensures |t| <= ByteLen(t) <= 4 * |t|
  {
    if t != [] { ByteLenBounds(t[1..]); }
  }

  // A character takes no more than so many octets exactly when its number fits
  // in the seven, eleven, sixteen or twenty-one bits they carry.
  lemma OctetsOf(r: Rune, n: nat)
    requires 1 <= n <= 4
    ensures ByteLen([r]) <= n <==> r < [0x80, 0x800, 0x1_0000, 0x20_0000][n - 1]
  {
    assert [r][1..] == [];
  }

  datatype Reply = Accepted | NotStreaming | TooLong

  // The append script, as it concerns the text: what it answers, and what is
  // buffered afterwards.
  function AppendTo(buffer: Option<Text>, delta: Text): (Reply, Option<Text>) {
    match buffer
    case None => (NotStreaming, None)
    case Some(text) =>
      if ByteLen(text) + ByteLen(delta) > STREAM_MAX_BYTES then (TooLong, buffer)
      else (Accepted, Some(text + delta))
  }

  // A delta is refused as too long only when the whole text would not fit in
  // the character limit; what is accepted never outgrows the byte limit.
  lemma TooLongIsTooLong(text: Text, delta: Text)
    ensures AppendTo(Some(text), delta).0 == TooLong ==> |text + delta| > 8000
    ensures ByteLen(text) <= STREAM_MAX_BYTES ==>
              var after := AppendTo(Some(text), delta).1;
              after.Some? && ByteLen(after.value) <= STREAM_MAX_BYTES && text <= after.value
  {
    ByteLenConcat(text, delta);
    ByteLenBounds(text + delta);
  }

  // A stream's name: its message, and the agent writing it.
  datatype Ref = Ref(agent: Id, message: Id)
  datatype Buffer = Buffer(text: Text, conversation: Id, users: seq<Id>, expires: int)

  class Store {
    var buffers: map<Ref, Buffer>
    // Every live stream, scored by its last activity.
    var active: map<Ref, int>

    function TextOf(ref: Ref): Option<Text>
      reads this
    {
      if ref in buffers then Some(buffers[ref].text) else None
    }

    constructor ()
      ensures buffers == map[] && active == map[]
    {
      buffers, active := map[], map[];
    }

    // Redis dropping the keys whose time is up.
    method Expire(now: int)
      modifies this`buffers
      ensures forall ref :: ref in buffers <==> ref in old(buffers) && now < old(buffers)[ref].expires
      ensures forall ref :: ref in buffers ==> buffers[ref] == old(buffers)[ref]
    {
      buffers := map ref | ref in buffers && now < buffers[ref].expires :: buffers[ref];
    }

    method Open(ref: Ref, conversation: Id, users: seq<Id>, now: int)
      modifies this
      ensures buffers == old(buffers)[ref := Buffer([], conversation, users, now + 600_000)]
      ensures active == old(active)[ref := now]
    {
      buffers := buffers[ref := Buffer([], conversation, users, now + STREAM_TTL)];
      active := active[ref := now];
    }

    // An accepted delta renews the buffer's life and the stream's activity
    // and says whom to tell; a refused one changes nothing at all.
    method Append(ref: Ref, delta: Text, now: int)
      returns (reply: Reply, conversation: Option<Id>, users: seq<Id>)
      modifies this
      ensures reply == AppendTo(old(TextOf(ref)), delta).0
      ensures reply == NotStreaming <==> ref !in old(buffers)
      ensures reply == Accepted <==>
                ref in old(buffers) && ByteLen(old(buffers)[ref].text) + ByteLen(delta) <= 32_000
      ensures TextOf(ref) == AppendTo(old(TextOf(ref)), delta).1
      ensures reply != Accepted ==>
                buffers == old(buffers) && active == old(active) && conversation.None? && users == []
      ensures reply == Accepted ==>
                && ref in old(buffers)
                && buffers == old(buffers)[ref := old(buffers)[ref].(text := old(buffers)[ref].text + delta,
                                                                     expires := now + 600_000)]
                && active == old(active)[ref := now]
                && conversation == Some(old(buffers)[ref].conversation) && users == old(buffers)[ref].users
      ensures reply == TooLong ==>
                ref in buffers && |buffers[ref].text + delta| > 8000
    {
      if ref !in buffers {
        return NotStreaming, None, [];
      }
      var held := buffers[ref];
      TooLongIsTooLong(held.text, delta);
      if ByteLen(held.text) + ByteLen(delta) > STREAM_MAX_BYTES {
        return TooLong, None, [];
      }
      buffers := buffers[ref := held.(text := held.text + delta, expires := now + STREAM_TTL)];
      active := active[ref := now];
      return Accepted, Some(held.conversation), held.users;
    }

    method Text(ref: Ref) returns (text: Text, found: bool)
      ensures found == TextOf(ref).Some?
      ensures text == if found then TextOf(ref).value else []
    {
      if ref in buffers {
        return buffers[ref].text, true;
      }
      return [], false;
    }

    method Remove(ref: Ref)
      modifies this
      ensures buffers == old(buffers) - {ref} && active == old(active) - {ref}
    {
      buffers, active := buffers - {ref}, active - {ref};
    }
  }
}
