/**
 * The `predictions` table: one row per classified upload, as declared by the
 * ORM model `Prediction` (app/models/prediction.py).
 */
module PredictionModel {
  import opened Wrappers

  /** One byte of an uploaded file. */
  newtype Byte = b: int | 0 <= b < 256

  /**
   * The value the `timestamp` column receives from the server clock at
   * insertion; the model never inspects it.
   */
  datatype Timestamp = Timestamp(ticks: int)

  /** The JSON column `input_data`, always `{"filename": ...}` in this system. */
  datatype InputData = InputData(filename: string)

  /** The JSON column `output_data`, always `{"result": ...}` in this system. */
  datatype OutputData = OutputData(result: string)

  /**
   * A stored prediction. `id` is the primary key, `userId` the owner,
   * `imageData` the optional `LargeBinary` column holding the uploaded bytes.
   */
  datatype Prediction = Prediction(
    id: nat,
    userId: int,
    inputData: InputData,
    outputData: OutputData,
    imageData: Option<seq<Byte>>,
    timestamp: Timestamp)

  /** The row that the create routes insert for one classified upload. */
  function NewPrediction(id: nat, userId: int, filename: string, image: seq<Byte>,
                         result: string, now: Timestamp): (p: Prediction)
    ensures p.id == id && p.userId == userId && p.timestamp == now
    ensures p.inputData.filename == filename && p.outputData.result == result
    ensures p.imageData == Some(image)
  {
    Prediction(id, userId, InputData(filename), OutputData(result), Some(image), now)
  }

  /** `id` is a primary key: no two rows of the table share it. */
  ghost predicate DistinctIds(table: seq<Prediction>)
  {
    forall i, j :: 0 <= i < |table| && 0 <= j < |table| && table[i].id == table[j].id ==> i == j
  }

  /** Rows are kept in insertion order, and ids are handed out in increasing order. */
  ghost predicate IdsIncreasing(table: seq<Prediction>)
  {
    forall i, j :: 0 <= i < j < |table| ==> table[i].id < table[j].id
  }

  /** Every id in the table is below `bound`, the next id to be handed out. */
  ghost predicate IdsBelow(table: seq<Prediction>, bound: nat)
  {
    forall i :: 0 <= i < |table| ==> table[i].id < bound
  }

  lemma IncreasingIdsAreDistinct(table: seq<Prediction>)
    requires IdsIncreasing(table)
    ensures DistinctIds(table)
  {
  }

  /** Appending a row with a fresh, larger id keeps the table ordered by id. */
  lemma {:induction false} AppendKeepsIdsIncreasing(table: seq<Prediction>, p: Prediction, bound: nat)
    requires IdsIncreasing(table) && IdsBelow(table, bound) && bound <= p.id
    ensures IdsIncreasing(table + [p]) && IdsBelow(table + [p], p.id + 1)
  {
    var t := table + [p];
    forall i, j | 0 <= i < j < |t| ensures t[i].id < t[j].id {
      if j < |table| {
        assert t[i] == table[i] && t[j] == table[j];
      } else {
        assert t[i] == table[i] && table[i].id < bound;
      }
    }
  }

  /** Appending rows whose ids are increasing and at least `bound` keeps the table ordered by id. */
  lemma ConcatKeepsIdsIncreasing(table: seq<Prediction>, rows: seq<Prediction>, bound: nat)
    requires IdsIncreasing(table) && IdsBelow(table, bound)
    requires IdsIncreasing(rows) && forall i :: 0 <= i < |rows| ==> bound <= rows[i].id
    ensures IdsIncreasing(table + rows)
  {
    var t := table + rows;
    forall a, b | 0 <= a < b < |t| ensures t[a].id < t[b].id {
      if b < |table| {
        assert t[a] == table[a] && t[b] == table[b];
      } else if a < |table| {
        assert t[a] == table[a] && t[b] == rows[b - |table|];
      } else {
        assert t[a] == rows[a - |table|] && t[b] == rows[b - |table|];
      }
    }
  }
}
