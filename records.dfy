/**
  A hydra sub-chunk as a run of fixed-size records. The reader materialises
  size / k - 1 records of k bytes each; the record after them is the
  terminal sentinel every writer appends, and it is never materialised.
*/
module Records {
  import opened Ints
  import opened Bytes
  import opened Wrappers

  /** The bytes of a run of records, each laid out by enc. */
  function Flatten<T>(rs: seq<T>, enc: T -> Bytes): (b: Bytes)
  {
    if rs == [] then [] else enc(rs[0]) + Flatten(rs[1..], enc)
  }

  lemma {:induction false} FlattenLength<T>(rs: seq<T>, enc: T -> Bytes, k: nat)
    requires forall r :: |enc(r)| == k
    ensures |Flatten(rs, enc)| == |rs| * k
  {
    if rs != [] {
      FlattenLength(rs[1..], enc, k);
    }
  }

  lemma {:induction false} FlattenAppend<T>(rs: seq<T>, ts: seq<T>, enc: T -> Bytes)
    ensures Flatten(rs + ts, enc) == Flatten(rs, enc) + Flatten(ts, enc)
  {
    if rs == [] {
      assert rs + ts == ts;
    } else {
      assert (rs + ts)[0] == rs[0];
      assert (rs + ts)[1..] == rs[1..] + ts;
      FlattenAppend(rs[1..], ts, enc);
    }
  }

  /** Decodes n consecutive k-byte records from the front of b. */
  function Unflatten<T>(b: Bytes, k: nat, n: nat, dec: Bytes --> T): (rs: seq<T>)
    requires n * k <= |b|
    requires forall c: Bytes :: |c| == k ==> dec.requires(c)
    ensures |rs| == n
  {
    if n == 0 then [] else [dec(b[..k])] + Unflatten(b[k..], k, n - 1, dec)
  }

  /**
    Reads a sub-chunk payload. A payload shorter than one record holds no
    sentinel: the source's unsigned count wraps around and the read runs off
    the chunk, which the model reports as a format error.
  */
  function ReadChunk<T>(payload: Bytes, k: nat, dec: Bytes --> T): (r: Result<seq<T>>)
    requires k > 0
    requires forall c: Bytes :: |c| == k ==> dec.requires(c)
    ensures r.Ok? <==> |payload| >= k
    ensures r.Ok? ==> |r.value| == |payload| / k - 1
  {
    if |payload| < k then Err(FormatError)
    else Ok(Unflatten(payload, k, |payload| / k - 1, dec))
  }

  /** Writes the records followed by the terminal sentinel. */
  function WriteChunk<T>(rs: seq<T>, sentinel: T, enc: T -> Bytes): (b: Bytes)
  {
    Flatten(rs + [sentinel], enc)
  }

  lemma {:induction false} UnflattenFlatten<T>(rs: seq<T>, out: seq<T>, rest: Bytes, k: nat, enc: T -> Bytes, dec: Bytes --> T)
    requires forall r :: |enc(r)| == k
    requires forall c: Bytes :: |c| == k ==> dec.requires(c)
    requires |out| == |rs|
    requires forall i :: 0 <= i < |rs| ==> dec(enc(rs[i])) == out[i]
    ensures |rs| * k <= |Flatten(rs, enc) + rest|
    ensures Unflatten(Flatten(rs, enc) + rest, k, |rs|, dec) == out
  {
    FlattenLength(rs, enc, k);
    if rs != [] {
      var b := Flatten(rs, enc) + rest;
      assert b == enc(rs[0]) + (Flatten(rs[1..], enc) + rest);
      assert b[..k] == enc(rs[0]);
      assert b[k..] == Flatten(rs[1..], enc) + rest;
      assert dec(enc(rs[0])) == out[0];
      UnflattenFlatten(rs[1..], out[1..], rest, k, enc, dec);
    }
  }

  lemma MulDivCancel(n: nat, k: nat)
    requires k > 0
    ensures (n * k) / k == n
  {
    var q := (n * k) / k;
    var r := (n * k) % k;
    assert n * k == q * k + r;
    assert (n - q) * k == r;
    if n - q >= 1 {
      assert false;
    } else if n - q <= -1 {
      assert false;
    }
  }

  /**
    What a writer emits, a reader gives back: one decoded record per
    written record, and nothing for the sentinel. The decoded records are
    given as out, since a header reads back without the zones it was
    written with.
  */
  lemma {:induction false} ChunkRoundTrip<T>(rs: seq<T>, out: seq<T>, sentinel: T, k: nat, enc: T -> Bytes, dec: Bytes --> T)
    requires k > 0
    requires forall r :: |enc(r)| == k
    requires forall c: Bytes :: |c| == k ==> dec.requires(c)
    requires |out| == |rs|
    requires forall i :: 0 <= i < |rs| ==> dec(enc(rs[i])) == out[i]
    ensures ReadChunk(WriteChunk(rs, sentinel, enc), k, dec) == Ok(out)
  {
    var b := WriteChunk(rs, sentinel, enc);
    FlattenAppend(rs, [sentinel], enc);
    assert Flatten([sentinel], enc) == enc(sentinel) + Flatten([], enc);
    FlattenLength(rs + [sentinel], enc, k);
    assert |b| == (|rs| + 1) * k;
    MulDivCancel(|rs| + 1, k);
    UnflattenFlatten(rs, out, Flatten([sentinel], enc), k, enc, dec);
  }
}
