/**
 The output rings and their readers (`aiRing`, `aiOutput.ReadText`,
 `aiOutput.ReadRaw`, `trimIncompleteRune`, ai_session.go).

 A ring keeps the last bytes of a stream at absolute cursors: the byte at cursor
 `c` sits at index `c % size` of the array. `stream` is the whole stream ever
 written, which the ring itself no longer holds.
 */
module Ring {
  import opened Bytes

  lemma MulAtLeast(k: int, size: nat)
    requires k >= 1
    ensures k * size >= size
  {
  }

  lemma MulAtMost(k: int, size: nat)
    requires k <= -1
    ensures k * size + size <= 0
  {
    MulAtLeast(-k, size);
    assert (-k) * size == -(k * size);
  }

  lemma SmallMultiple(k: int, size: nat)
    requires k * size < size && k * size + size > 0
    ensures k == 0
  {
    if k >= 1 {
      MulAtLeast(k, size);
    } else if k <= -1 {
      MulAtMost(k, size);
    }
  }

  /** Two cursors less than one turn apart that share an index are equal. */
  lemma ModWindow(a: nat, b: nat, size: nat)
    requires size > 0 && a <= b < a + size && a % size == b % size
    ensures a == b
  {
    var qa, qb := a / size, b / size;
    assert a == qa * size + a % size && b == qb * size + b % size;
    assert b - a == (qb - qa) * size;
    SmallMultiple(qb - qa, size);
  }

  /** The index of cursor `from + i` when `from` sits at `pos`. */
  lemma WrapIndex(from: nat, i: nat, size: nat)
    requires size > 0 && i < size
    ensures (from + i) % size == (if from % size + i < size then from % size + i else from % size + i - size)
  {
    var q, pos := from / size, from % size;
    assert from == q * size + pos;
    if pos + i < size {
      ModOf(q, pos + i, size);
    } else {
      assert from + i == (q + 1) * size + (pos + i - size);
      ModOf(q + 1, pos + i - size, size);
    }
  }

  lemma ModOf(q: nat, r: nat, size: nat)
    requires r < size
    ensures (q * size + r) % size == r
  {
    var n := q * size + r;
    var q', r' := n / size, n % size;
    assert n == q' * size + r';
    assert (q - q') * size == r' - r;
    SmallMultiple(q - q', size);
  }

  class RingBuffer {
    var data: array<Byte>
    var held: nat
    var end: nat
    ghost var stream: seq<Byte>

    ghost predicate Valid()
      reads this, data
    {
      && data.Length > 0
      && end == |stream|
      && held <= data.Length && held <= end
      && (forall c :: end - held <= c < end ==> data[c % data.Length] == stream[c])
    }

    /** The cursor of the oldest byte held. */
    function Start(): nat
      reads this
      requires held <= end
    {
      end - held
    }

    constructor (size: int)
      ensures Valid() && fresh(data)
      ensures data.Length == (if size > 1 then size else 1)
      ensures stream == [] && held == 0
    {
      data := new Byte[if size > 1 then size else 1](_ => 0);
      held, end, stream := 0, 0, [];
    }

    /** Go's `copy(data[pos:], src)`: as many bytes as fit. */
    method CopyAt(pos: nat, src: seq<Byte>) returns (n: nat)
      requires pos <= data.Length
      modifies data
      ensures n == Min(|src|, data.Length - pos)
      ensures forall i :: 0 <= i < data.Length ==>
                data[i] == (if pos <= i < pos + n then src[i - pos] else old(data[i]))
    {
      n := Min(|src|, data.Length - pos);
      for k := 0 to n
        invariant forall i :: 0 <= i < data.Length ==>
                    data[i] == (if pos <= i < pos + k then src[i - pos] else old(data[i]))
      {
        data[pos + k] := src[k];
      }
    }

    /** Store at most `data.Length` bytes behind the end of the stream. */
    method Place(p: seq<Byte>)
      requires data.Length > 0 && |p| <= data.Length
      modifies data
      ensures forall i :: 0 <= i < |p| ==> data[(end + i) % data.Length] == p[i]
      ensures forall c :: end + |p| - data.Length <= c < end && c >= 0 ==>
                data[c % data.Length] == old(data[c % data.Length])
    {
      var size := data.Length;
      var pos := end % size;
      var n := CopyAt(pos, p);
      label first:
      var rest := CopyAt(0, p[n..]);
      assert rest == |p| - n;
      forall i | 0 <= i < |p| ensures data[(end + i) % size] == p[i] {
        WrapIndex(end, i, size);
      }
      forall c | end + |p| - size <= c < end && c >= 0
        ensures data[c % size] == old(data[c % size])
      {
        UntouchedIndex(c, end, |p|, size);
      }
    }

    /** `write`: the stream grows by `p`; the last `held` bytes are kept. */
    method Write(p: seq<Byte>)
      requires Valid()
      modifies this`held, this`end, this`stream, data
      ensures Valid() && data == old(data)
      ensures stream == old(stream) + p
      ensures held == Min(old(held) + |p|, data.Length)
    {
      ghost var whole := stream + p;
      var size := data.Length;
      var q := p;
      if |p| > size {
        end := end + (|p| - size);
        q := p[|p| - size..];
      }
      Place(q);
      ghost var before := end;
      end := end + |q|;
      held := Min(held + |q|, size);
      stream := whole;
      forall c | end - held <= c < end ensures data[c % size] == stream[c] {
        if c >= before {
          assert data[(before + (c - before)) % size] == q[c - before];
        }
      }
    }

    /** `read`: up to `n` bytes from cursor `from`, which the ring must hold. */
    method Read(from: nat, n: int) returns (out: seq<Byte>)
      requires Valid() && Start() <= from <= end
      ensures out == if n <= 0 then [] else stream[from..from + Min(n, end - from)]
    {
      var m := Min(n, end - from);
      if m <= 0 {
        return [];
      }
      var size := data.Length;
      var pos := from % size;
      var c := Min(m, size - pos);
      out := data[pos..pos + c] + data[..m - c];
      forall i | 0 <= i < m ensures out[i] == stream[from + i] {
        WrapIndex(from, i, size);
        assert data[(from + i) % size] == stream[from + i];
      }
      assert out == stream[from..from + m];
    }

    /** `shrink`: a ring of `keep` bytes with the newest of the old ones; cursors stay. */
    method Shrink(keep: int)
      requires Valid()
      modifies this`data, this`held
      ensures Valid() && (data == old(data) || fresh(data))
      ensures stream == old(stream) && end == old(end)
      ensures data.Length == Min(old(data).Length, if keep > 1 then keep else 1)
      ensures var k := if keep > 1 then keep else 1;
              held == (if old(data).Length <= k then old(held) else Min(old(held), k))
    {
      var k := if keep > 1 then keep else 1;
      if data.Length <= k {
        return;
      }
      var n := Min(held, k);
      var newest := Read(end - n, n);
      var smaller := new RingBuffer(k);
      smaller.stream := stream[..end - n];
      smaller.end := end - n;
      smaller.Write(newest);
      assert stream[..end - n] + stream[end - n..end] == stream;
      data, held := smaller.data, smaller.held;
    }
  }

  /** Writing `n` bytes at `end` leaves the index of an older cursor in the window alone. */
  lemma UntouchedIndex(c: nat, end: nat, n: nat, size: nat)
    requires size > 0 && n <= size && end + n - size <= c < end
    ensures var pos, first := end % size, Min(n, size - end % size);
            !(pos <= c % size < pos + first) && !(0 <= c % size < n - first)
  {
    var pos, x := end % size, c % size;
    var first := Min(n, size - pos);
    if pos <= x < pos + first {
      NotHit(c, end, x - pos, size);
    } else if x < n - first {
      NotHit(c, end, first + x, size);
    }
  }

  lemma NotHit(c: nat, end: nat, i: nat, size: nat)
    requires size > 0 && i < size && end + i < c + size && c < end
    ensures c % size != (if end % size + i < size then end % size + i else end % size + i - size)
  {
    WrapIndex(end, i, size);
    if (end + i) % size == c % size {
      ModWindow(c, end + i, size);
    }
  }
}
