// One file and the ranges to read from it, as the Python layers pass it around.
module FileChunksModel {
  import opened Seqs

  datatype Result<+T> = Ok(value: T) | ValueError

  // offsets and sizes are parallel lists.
  datatype FileChunks = FileChunks(id: nat, path: string, offsets: seq<nat>, sizes: seq<nat>) {
    ghost predicate Valid() { |offsets| == |sizes| }

    function TotalSize(): nat { Sum(sizes) }
  }

  ghost predicate AllValid(files: seq<FileChunks>)
  {
    forall i :: 0 <= i < |files| ==> files[i].Valid()
  }
}
