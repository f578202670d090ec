/**
 The buffer behind a stage's output: every chunk goes to the log file, and the most recent
 chunks stay in memory, up to a number of bytes.
 */
module LogBuffer {
  import opened Wrappers

  function Size(chunks: seq<Bytes>): nat {
    if chunks == [] then 0 else |chunks[0]| + Size(chunks[1..])
  }

  // The chunks that stay: whole ones are dropped from the left until the rest fits.
  function Window(fed: seq<Bytes>, capacity: nat): seq<Bytes> {
    if Size(fed) <= capacity then fed else Window(fed[1..], capacity)
  }

  /** What stays is the longest run of most recent chunks that fits. */
  lemma {:induction false} WindowIsLongest(fed: seq<Bytes>, capacity: nat)
    ensures var ring := Window(fed, capacity);
            && |ring| <= |fed| && ring == fed[|fed| - |ring|..] && Size(ring) <= capacity
            && forall k :: 0 <= k < |fed| - |ring| ==> Size(fed[k..]) > capacity
  {
    if Size(fed) <= capacity {
      assert fed == fed[0..];
    } else {
      var rest := fed[1..];
      WindowIsLongest(rest, capacity);
      var ring := Window(rest, capacity);
      forall k | 0 <= k < |fed| - |ring| ensures Size(fed[k..]) > capacity {
        if k == 0 {
          assert fed[0..] == fed;
        } else {
          assert rest[k - 1..] == fed[k..];
        }
      }
    }
  }

  lemma {:induction false} JoinAppend(a: seq<Bytes>, b: seq<Bytes>)
    ensures Join(a + b) == Join(a) + Join(b) && Size(a + b) == Size(a) + Size(b)
  {
    if a == [] {
      assert a + b == b;
    } else {
      assert (a + b)[0] == a[0] && (a + b)[1..] == a[1..] + b;
      JoinAppend(a[1..], b);
    }
  }

  lemma JoinOne(chunk: Bytes)
    ensures Join([chunk]) == chunk && Size([chunk]) == |chunk|
  {
    var one := [chunk];
    assert one[0] == chunk && one[1..] == [];
  }

  lemma {:induction false} SizeOfJoin(chunks: seq<Bytes>)
    ensures |Join(chunks)| == Size(chunks)
  {
    if chunks != [] {
      SizeOfJoin(chunks[1..]);
    }
  }

  // A chunk dropped earlier would be dropped later too.
  lemma {:induction false} WindowAppend(fed: seq<Bytes>, chunk: Bytes, capacity: nat)
    ensures Window(Window(fed, capacity) + [chunk], capacity) == Window(fed + [chunk], capacity)
  {
    if Size(fed) > capacity {
      WindowAppend(fed[1..], chunk, capacity);
      JoinAppend(fed, [chunk]);
      assert (fed + [chunk])[1..] == fed[1..] + [chunk];
    }
  }

  /** The bytes kept in memory are the last bytes of the log. */
  lemma WindowEndsLog(fed: seq<Bytes>, capacity: nat)
    ensures Size(Window(fed, capacity)) <= |Join(fed)|
    ensures Join(Window(fed, capacity)) == Join(fed)[|Join(fed)| - Size(Window(fed, capacity))..]
  {
    WindowIsLongest(fed, capacity);
    var ring := Window(fed, capacity);
    var dropped := fed[..|fed| - |ring|];
    assert fed == dropped + ring;
    JoinAppend(dropped, ring);
    SizeOfJoin(ring);
  }

  // `data[-m:]` of something longer than `m`: all of it for 0, and past the first `-m` bytes below 0.
  function FromEnd(data: Bytes, m: int): Bytes
    requires |data| > m
  {
    if m > 0 then data[|data| - m..] else if -m <= |data| then data[-m..] else []
  }

  // How many bytes the last `maxBytes` of `size` buffered ones are.
  function Shown(size: nat, maxBytes: Option<int>): nat {
    match maxBytes
    case None => size
    case Some(m) => if m >= size then size else if m > 0 then m else if size + m >= 0 then size + m else 0
  }

  // `b"".join(ring)`
  method Joined(chunks: seq<Bytes>) returns (data: Bytes)
    ensures data == Join(chunks)
  {
    data := [];
    var i := 0;
    while i < |chunks|
      invariant 0 <= i <= |chunks| && data + Join(chunks[i..]) == Join(chunks)
    {
      var rest := chunks[i..];
      assert rest[0] == chunks[i] && rest[1..] == chunks[i + 1..];
      InFront(data, chunks[i], Join(rest[1..]), data + chunks[i], Join(rest));
      data := data + chunks[i];
      i := i + 1;
    }
  }

  class LogBuffer {
    const capacity: nat
    var ring: seq<Bytes>
    var ringSize: int
    var closed: bool
    // What this buffer appended to the log file.
    var file: Bytes
    ghost var fed: seq<Bytes>

    ghost predicate Valid()
      reads this
    {
      && capacity >= 1
      && ring == Window(fed, capacity) && ringSize == Size(ring)
      && file == Join(fed) && [] !in fed
    }

    constructor (ringBytes: int)
      ensures Valid() && fed == [] && !closed
      ensures capacity == if ringBytes >= 1 then ringBytes else 1
    {
      capacity := if ringBytes >= 1 then ringBytes else 1;
      ring, ringSize, closed, file, fed := [], 0, false, [], [];
    }

    method Feed(chunk: Bytes)
      requires Valid()
      modifies this
      ensures Valid() && closed == old(closed)
      ensures fed == if chunk == [] || closed then old(fed) else old(fed) + [chunk]
    {
      if chunk == [] || closed {
        return;
      }
      JoinAppend(fed, [chunk]);
      JoinAppend(ring, [chunk]);
      JoinOne(chunk);
      WindowAppend(fed, chunk, capacity);
      file := file + chunk;
      ring := ring + [chunk];
      ringSize := ringSize + |chunk|;
      fed := fed + [chunk];
      while ringSize > capacity && ring != []
        invariant ringSize == Size(ring) && Window(ring, capacity) == Window(fed, capacity)
        invariant file == Join(fed) && fed == old(fed) + [chunk] && closed == old(closed)
        decreases |ring|
      {
        var popped := ring[0];
        ring := ring[1..];
        ringSize := ringSize - |popped|;
      }
    }

    method Tail(maxBytes: Option<int>) returns (data: Bytes)
      requires Valid()
      ensures |data| == Shown(ringSize, maxBytes) && |data| <= |file|
      ensures match maxBytes
              case None => |data| == ringSize
              case Some(m) =>
                && (m >= ringSize || m == 0 ==> |data| == ringSize)
                && (0 < m < ringSize ==> |data| == m)
                && (-ringSize <= m < 0 ==> |data| == ringSize + m)
                && (m < -ringSize ==> data == [])
      ensures data == file[|file| - |data|..]
    {
      data := Joined(ring);
      WindowEndsLog(fed, capacity);
      SizeOfJoin(ring);
      if maxBytes.Some? && |data| > maxBytes.value {
        data := FromEnd(data, maxBytes.value);
      }
    }

    method Close()
      requires Valid()
      modifies this`closed
      ensures Valid() && closed
    {
      closed := true;
    }
  }
}
