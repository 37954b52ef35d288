/** The packed object id ("PID") used to tag world objects, and the 32-bit
    word fill `memset32`.

    A PID keeps an object type in its low three bits and an object index in
    the thirteen bits above them, all truncated to 16 bits. The C++ masks
    `& 0xFFFF` and `& 7` keep the low bits of a two's-complement value, which
    is exactly Dafny's Euclidean `%` by the matching power of two, so the
    model works on unbounded integers and states each truncation with `%`. */
module MM7 {

  /** `ObjectType` fills the three-bit type field of a PID. */
  type ObjectType = t: int | 0 <= t < 8

  /** Values of a `uint16_t`. */
  type U16 = x: int | 0 <= x < 0x1_0000

  /** Values of a `uint32_t`. */
  type Word = x: int | 0 <= x < 0x1_0000_0000

  /** Number of distinct object indices a PID can carry (2^13). */
  const ID_LIMIT: int := 0x2000

  /** `PID_INVALID`, the `uint16_t` conversion of -1. */
  const PID_INVALID: U16 := 0xFFFF

  /** `PID(type, id)`: `(8 * id) | type`, truncated to 16 bits. The low three
      bits of `8 * id` are zero, so the bitwise or with a three-bit type is
      the sum. */
  function Pid(t: ObjectType, id: int): (p: U16)
    ensures p % 8 == t
    ensures 0 <= id < ID_LIMIT ==> p / 8 == id
  {
    (8 * id + t) % 0x1_0000
  }

  /** `PID_TYPE(pid)`: `pid & 7`. */
  function PidType(pid: int): (t: ObjectType)
    ensures (pid - t) % 8 == 0
  {
    pid % 8
  }

  /** `PID_ID(pid)`: `(pid & 0xFFFF) >> 3`. */
  function PidId(pid: int): (id: int)
    ensures 0 <= id < ID_LIMIT
  {
    (pid % 0x1_0000) / 8
  }

  /** Splitting `id` into its low thirteen bits and the rest. */
  lemma PidLayout(t: ObjectType, id: int)
    ensures Pid(t, id) == 8 * (id % ID_LIMIT) + t
  {
    var q := id / ID_LIMIT;
    var r := id % ID_LIMIT;
    assert id == ID_LIMIT * q + r;
    assert 8 * id + t == 0x1_0000 * q + (8 * r + t);
  }

  /** Decoding a freshly packed PID gives back the type, and the index
      truncated to thirteen bits. */
  lemma PidRoundTrip(t: ObjectType, id: int)
    ensures PidType(Pid(t, id)) == t
    ensures PidId(Pid(t, id)) == id % ID_LIMIT
    ensures 0 <= id < ID_LIMIT ==> PidId(Pid(t, id)) == id
  {
    PidLayout(t, id);
    var r := id % ID_LIMIT;
    assert Pid(t, id) == 8 * r + t;
    assert (8 * r + t) % 8 == t;
    assert (8 * r + t) / 8 == r;
  }

  /** Packing the decoded fields of any value rebuilds its low sixteen bits. */
  lemma PidDecodeEncode(pid: int)
    ensures Pid(PidType(pid), PidId(pid)) == pid % 0x1_0000
  {
  }

  /** Within the representable ranges, distinct (type, index) pairs get
      distinct PIDs. */
  lemma PidInjective(t1: ObjectType, id1: int, t2: ObjectType, id2: int)
    requires 0 <= id1 < ID_LIMIT && 0 <= id2 < ID_LIMIT
    requires Pid(t1, id1) == Pid(t2, id2)
    ensures t1 == t2 && id1 == id2
  {
  }

  /** `PID_INVALID` is all ones: type 7 with the largest index. */
  lemma PidInvalidFields()
    ensures PID_INVALID == (-1) % 0x1_0000
    ensures PidType(PID_INVALID) == 7
    ensures PidId(PID_INVALID) == ID_LIMIT - 1
    ensures Pid(7, ID_LIMIT - 1) == PID_INVALID
  {
  }

  /** `memset32(ptr, value, count)`: stores `value` into the first `count`
      words of the buffer (none when `count <= 0`). The buffer must hold at
      least `count` words. */
  method Memset32(buffer: seq<Word>, value: Word, count: int) returns (r: seq<Word>)
    requires count <= |buffer|
    ensures |r| == |buffer|
    ensures forall i :: 0 <= i < |r| && i < count ==> r[i] == value
    ensures forall i :: 0 <= i < |r| && count <= i ==> r[i] == buffer[i]
  {
    r := buffer;
    var i := 0;
    while i < count
      invariant 0 <= i && (i <= count || i == 0)
      invariant |r| == |buffer|
      invariant forall k :: 0 <= k < i ==> r[k] == value
      invariant forall k :: i <= k < |r| ==> r[k] == buffer[k]
    {
      r := r[i := value];
      i := i + 1;
    }
  }
}
