/** Start-up: decide whether the `zip` collection must be (re)built and, if
    so, replace its contents by the normalised CSV rows (`init` and
    `setupDatabase`). The stored collection and the parsed CSV file are
    inputs; the connection, the index creation and the logging are not modelled. */
module Setup {
  import opened Js
  import opened Records

  /** `process.env.FORCE_RECREATE || false`. The variable is a string when set,
      so any non-empty value, "false" and "0" included, forces a rebuild. */
  function ForceRecreate(env: Maybe<string>): (force: bool)
    ensures force <==> env.Defined? && |env.value| > 0
  {
    Truthy(env)
  }

  /** The rebuild condition `count <= 0 || FORCE_RECREATE`. */
  predicate ShouldRebuild(count: int, force: bool)
  {
    count <= 0 || force
  }

  /** The two indexes `init` creates after a rebuild: a text index over
      the given fields, and a `2dsphere` index over one field. */
  datatype IndexSpec = TextIndex(fields: seq<string>) | SphereIndex(field: string)

  /** Both index builds of a rebuild succeed, the text index over `zip_code`
      and `name` first, then the `2dsphere` index over `location`.
      `createIndex` is the store's answer to building an index over the
      inserted documents. */
  predicate IndexesBuilt(docs: seq<Doc>, createIndex: (IndexSpec, seq<Doc>) -> bool)
  {
    createIndex(TextIndex(["zip_code", "name"]), docs) && createIndex(SphereIndex("location"), docs)
  }

  /** `init` followed by `setupDatabase`: with `count` the number of stored
      documents and `forceEnv` the value of `FORCE_RECREATE` in the
      environment, the collection is dropped and refilled with the normalised
      CSV rows exactly when the rebuild condition holds; otherwise nothing is
      written. `after` is then the batch of documents inserted (the store adds
      an `_id` to each), or the stored documents when nothing is written.
      `started` is false when start-up aborts, which stops `run` before the
      server listens: an empty CSV file makes `insertMany` reject, leaving the
      collection dropped and empty, and a failed index build makes
      `createIndex` reject. */
  method Init(stored: seq<Doc>, csvRows: seq<Doc>, forceEnv: Maybe<string>, parseFloat: string -> Number,
              createIndex: (IndexSpec, seq<Doc>) -> bool)
    returns (after: seq<Doc>, rebuilt: bool, started: bool)
    ensures rebuilt <==> |stored| == 0 || ForceRecreate(forceEnv)
    ensures rebuilt ==> after == NormalizeAll(csvRows, parseFloat) && |after| == |csvRows|
    ensures rebuilt && csvRows == [] ==> after == [] && !started
    ensures !rebuilt ==> after == stored && started
    ensures started <==> !rebuilt || (|csvRows| > 0 && IndexesBuilt(after, createIndex))
  {
    var count := |stored|;
    rebuilt := ShouldRebuild(count, ForceRecreate(forceEnv));
    if rebuilt {
      // setupDatabase: drop, parse the CSV file, insertDocuments
      var rows := new Doc[|csvRows|](i => if 0 <= i < |csvRows| then csvRows[i] else map[]);
      assert rows[..] == csvRows;
      var inserted;
      after, inserted := InsertDocuments(rows, parseFloat);
      started := false;
      if inserted && createIndex(TextIndex(["zip_code", "name"]), after) {
        started := createIndex(SphereIndex("location"), after);
      }
    } else {
      after, started := stored, true;
    }
  }
}
