/** `_get_batches`: the batches a cursor hands out, of sizes of its own
    choosing, merged and split again into chunks of `chunksize` rows, with
    lower-cased column names. */
module Batches {

  import opened Results
  import Text

  /** A yielded chunk: its column names and its rows. */
  datatype Chunk<R> = Chunk(columns: seq<string>, rows: seq<R>)

  /** All rows of a list of batches, batch after batch. */
  function Flatten<R>(batches: seq<seq<R>>): seq<R> {
    if batches == [] then [] else batches[0] + Flatten(batches[1..])
  }

  lemma {:induction false} FlattenSnoc<R>(batches: seq<seq<R>>, b: seq<R>)
    ensures Flatten(batches + [b]) == Flatten(batches) + b
  {
    if batches != [] {
      assert (batches + [b])[1..] == batches[1..] + [b];
      FlattenSnoc(batches[1..], b);
    }
  }

  /** The chunks the rows end up in: full chunks of `size` rows from the
      front, while more than `size` rows are left, then the rest. */
  function Rechunk<R>(rows: seq<R>, size: nat): seq<seq<R>>
    requires size >= 1
    decreases |rows|
  {
    if |rows| <= size then [rows] else [rows[..size]] + Rechunk(rows[size..], size)
  }

  /** `rename(columns=str.lower)` on every column name. */
  function LowerColumns(columns: seq<string>): (r: seq<string>)
    ensures |r| == |columns|
    ensures forall i :: 0 <= i < |columns| ==> r[i] == Text.Lower(columns[i])
  {
    if columns == [] then [] else [Text.Lower(columns[0])] + LowerColumns(columns[1..])
  }

  /** The chunk for each list of rows, all with the same columns. */
  function Chunks<R>(columns: seq<string>, rows: seq<seq<R>>): (r: seq<Chunk<R>>)
    ensures |r| == |rows|
    ensures forall i :: 0 <= i < |rows| ==> r[i] == Chunk(columns, rows[i])
  {
    seq(|rows|, i requires 0 <= i < |rows| => Chunk(columns, rows[i]))
  }

  lemma ChunksSnoc<R>(columns: seq<string>, rows: seq<seq<R>>, x: seq<R>)
    ensures Chunks(columns, rows + [x]) == Chunks(columns, rows) + [Chunk(columns, x)]
  {
  }

  /** `_get_batches(cursor, chunksize)` over the batches the cursor hands
      out, every batch with the given columns. With no batch at all the
      final rename fails on the missing buffer. */
  method GetBatches<R>(columns: seq<string>, batches: seq<seq<R>>, chunksize: nat) returns (r: Result<seq<Chunk<R>>>)
    requires chunksize >= 1
    ensures batches == [] ==> r == Err(NoBatches)
    ensures batches != [] ==> r == Ok(Chunks(LowerColumns(columns), Rechunk(Flatten(batches), chunksize)))
  {
    var lowered := LowerColumns(columns);
    var yielded: seq<Chunk<R>> := [];
    ghost var full: seq<seq<R>> := [];
    var current: Option<seq<R>> := None;
    for i := 0 to |batches|
      invariant current.None? <==> i == 0
      invariant current.None? ==> full == []
      invariant yielded == Chunks(lowered, full)
      invariant FullChunks(full, chunksize)
      invariant current.Some? ==> Flatten(full) + current.value == Flatten(batches[..i])
      invariant current.Some? ==> |current.value| <= chunksize
      invariant full != [] ==> current.Some? && current.value != []
    {
      var buffer := if current.None? then batches[i] else current.value + batches[i];
      FlattenSnoc(batches[..i], batches[i]);
      assert batches[..i + 1] == batches[..i] + [batches[i]];
      assert Flatten(full) + buffer == Flatten(batches[..i + 1]) by {
        if current.None? {
          assert full == [] && batches[..i] == [];
        }
      }
      while |buffer| > chunksize
        invariant yielded == Chunks(lowered, full)
        invariant FullChunks(full, chunksize)
        invariant Flatten(full) + buffer == Flatten(batches[..i + 1])
        invariant full != [] ==> buffer != []
        decreases |buffer|
      {
        var subset := buffer[..chunksize];
        CutChunk(full, buffer, chunksize);
        buffer := buffer[chunksize..];
        ChunksSnoc(lowered, full, subset);
        yielded := yielded + [Chunk(lowered, subset)];
        full := full + [subset];
      }
      current := Some(buffer);
    }
    if current.None? {
      return Err(NoBatches);
    }
    assert batches[..|batches|] == batches;
    RechunkFullChunks(full, current.value, chunksize);
    ChunksSnoc(lowered, full, current.value);
    yielded := yielded + [Chunk(lowered, current.value)];
    full := full + [current.value];
    r := Ok(yielded);
  }

  /** Moving the first `size` rows of the buffer into a new full chunk keeps
      the rows seen so far, in order. */
  lemma CutChunk<R>(full: seq<seq<R>>, buffer: seq<R>, size: nat)
    requires |buffer| > size
    ensures Flatten(full + [buffer[..size]]) + buffer[size..] == Flatten(full) + buffer
  {
    FlattenSnoc(full, buffer[..size]);
    assert buffer == buffer[..size] + buffer[size..];
  }

  /** Every chunk has exactly `size` rows. */
  ghost predicate FullChunks<R>(chunks: seq<seq<R>>, size: nat) {
    forall k :: 0 <= k < |chunks| ==> |chunks[k]| == size
  }

  /** Full chunks followed by a rest of at most `size` rows, not empty after
      a full chunk, are what `Rechunk` makes of their rows. */
  lemma {:induction false} RechunkFullChunks<R>(full: seq<seq<R>>, rest: seq<R>, size: nat)
    requires size >= 1 && FullChunks(full, size)
    requires |rest| <= size && (full != [] ==> rest != [])
    ensures Rechunk(Flatten(full) + rest, size) == full + [rest]
  {
    if full != [] {
      var tail := Flatten(full[1..]) + rest;
      assert Flatten(full) + rest == full[0] + tail;
      assert |tail| >= 1 by {
        if full[1..] != [] {
          assert |Flatten(full[1..])| >= |full[1..][0]|;
        }
      }
      assert |full[0]| == size;
      RechunkCons(full[0], tail, size);
      RechunkFullChunks(full[1..], rest, size);
      assert [full[0]] + (full[1..] + [rest]) == full + [rest];
    } else {
      assert Flatten(full) + rest == rest;
    }
  }

  /** A full chunk in front of at least one more row is split off first. */
  lemma RechunkCons<R>(chunk: seq<R>, tail: seq<R>, size: nat)
    requires size >= 1 && |chunk| == size && tail != []
    ensures Rechunk(chunk + tail, size) == [chunk] + Rechunk(tail, size)
  {
    assert (chunk + tail)[..size] == chunk;
    assert (chunk + tail)[size..] == tail;
  }

  // ---------------------------------------------------------------------
  // Properties of the chunking

  /** Concatenating the chunks gives back the rows, in order. */
  lemma {:induction false} RechunkFlatten<R>(rows: seq<R>, size: nat)
    requires size >= 1
    ensures Flatten(Rechunk(rows, size)) == rows
    decreases |rows|
  {
    if |rows| <= size {
      assert Flatten([rows]) == rows + Flatten([rows][1..]);
      assert rows + [] == rows;
    } else {
      RechunkFlatten(rows[size..], size);
      var c := Rechunk(rows, size);
      assert c[1..] == Rechunk(rows[size..], size);
      assert rows[..size] + rows[size..] == rows;
    }
  }

  /** Every chunk but the last has exactly `size` rows; the last has at most
      `size`, and at least one when there are rows at all. */
  lemma {:induction false} RechunkSizes<R>(rows: seq<R>, size: nat)
    requires size >= 1
    ensures var c := Rechunk(rows, size);
            |c| >= 1
            && (forall k :: 0 <= k < |c| - 1 ==> |c[k]| == size)
            && |c[|c| - 1]| <= size
            && (rows != [] ==> |c[|c| - 1]| >= 1)
    decreases |rows|
  {
    if |rows| > size {
      RechunkSizes(rows[size..], size);
      var c := Rechunk(rows, size);
      var t := Rechunk(rows[size..], size);
      assert c == [rows[..size]] + t;
      assert forall k :: 1 <= k < |c| ==> c[k] == t[k - 1];
    }
  }

  /** A three-row result read with a chunk size of 1000 comes back as one
      chunk of three rows. */
  lemma ThreeRowsOneChunk<R>(columns: seq<string>, batches: seq<seq<R>>)
    requires batches != [] && |Flatten(batches)| == 3
    ensures Chunks(LowerColumns(columns), Rechunk(Flatten(batches), 1000))
         == [Chunk(LowerColumns(columns), Flatten(batches))]
  {
  }
}
