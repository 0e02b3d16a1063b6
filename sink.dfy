/**
 * The output of a run (app.js:241-286): a JSON array written record by record
 * to a file, optionally after a byte-order mark, and deleted at the end when
 * nothing was downloaded. The bytes themselves are not modelled: the array is
 * the sequence of records written so far.
 */
module Sink {
  import opened Js

  class OutputSink {
    /** The elements of the JSON array, in the order they were written. */
    var records: seq<Value>
    /** Whether a byte-order mark precedes the array. */
    var bom: bool
    /** Whether the output file is on disk. */
    var fileExists: bool
    /** Whether the stream has been ended. */
    var ended: bool

    /** Opening the output stream creates the file (app.js:248-253). */
    constructor (includeBom: bool)
      ensures records == [] && bom == includeBom && fileExists && !ended
    {
      records := [];
      bom := includeBom;
      fileExists := true;
      ended := false;
    }

    /** `processChain.write(record)`: one more element of the array. */
    method Write(record: Value)
      requires !ended
      modifies this
      ensures records == old(records) + [record]
      ensures bom == old(bom) && fileExists == old(fileExists) && !ended
    {
      records := records + [record];
    }

    /**
     * Ending the stream and the `finish` handler (app.js:265-280, 308): with no
     * records downloaded the file is deleted and nothing is saved.
     */
    method Finish(downloadedRecords: int) returns (saved: bool)
      requires fileExists && !ended
      modifies this
      ensures ended
      ensures saved <==> downloadedRecords != 0
      ensures fileExists == saved
      ensures records == old(records) && bom == old(bom)
    {
      ended := true;
      if downloadedRecords == 0 {
        fileExists := false;
        saved := false;
      } else {
        saved := true;
      }
    }
  }
}
