/**
 * The prediction routes (app/routes/predict.py) over an append-only table of
 * predictions. The authenticated caller arrives as a plain `userId`; the
 * classifier as a function that may fail.
 */
module PredictRoutes {
  import opened Wrappers
  import opened PredictionModel
  import opened PredictionSchema
  import opened Inference

  /** An uploaded file: its name and the bytes `file.file.read()` returns. */
  datatype UploadFile = UploadFile(filename: string, content: seq<Byte>)

  /** An `HTTPException` raised by a route. */
  datatype HttpError = HttpError(status: nat, detail: string)

  const PredictionNotFound: HttpError := HttpError(404, "Prediction not found")
  const ImageNotFound: HttpError := HttpError(404, "Image not found")

  /** One element of the `predictions` list answered by `POST /predict-multiple`. */
  datatype BatchEntry = BatchEntry(filename: string, result: string, predictionId: nat, imageUrl: string)

  // ---------------------------------------------------------------------------
  // Queries: the filters the read routes run against the table.
  // ---------------------------------------------------------------------------

  /** `query(Prediction).filter(Prediction.user_id == userId).all()`, in table order. */
  function Owned(table: seq<Prediction>, userId: int): (r: seq<Prediction>)
    ensures forall p :: p in r <==> p in table && p.userId == userId
    ensures |r| <= |table|
  {
    if table == [] then []
    else
      var init, last := table[..|table| - 1], table[|table| - 1];
      assert forall p :: p in table <==> p in init || p == last;
      Owned(init, userId) + (if last.userId == userId then [last] else [])
  }

  /** The caller's rows keep the table's order, so ids that increase along the table increase along them. */
  lemma {:induction false} OwnedKeepsOrder(table: seq<Prediction>, userId: int)
    ensures IdsIncreasing(table) ==> IdsIncreasing(Owned(table, userId))
  {
    if table != [] && IdsIncreasing(table) {
      var init, last := table[..|table| - 1], table[|table| - 1];
      OwnedKeepsOrder(init, userId);
      var rest := Owned(init, userId);
      if last.userId == userId {
        forall p | p in rest ensures p.id < last.id {
          var i :| 0 <= i < |init| && init[i] == p;
          assert table[i] == p;
        }
        var r := rest + [last];
        forall i, j | 0 <= i < j < |r| ensures r[i].id < r[j].id {
          if j < |rest| {
            assert r[i] == rest[i] && r[j] == rest[j];
          } else {
            assert r[i] in rest;
          }
        }
      }
    }
  }

  /** `.filter(Prediction.id == id, Prediction.user_id == userId).first()`. */
  function FindOwned(table: seq<Prediction>, userId: int, id: int): (r: Option<Prediction>)
    ensures r.Some? ==> r.value in table && r.value.id == id && r.value.userId == userId
    ensures r.None? <==> forall p :: p in table ==> !(p.id == id && p.userId == userId)
  {
    if table == [] then None
    else if table[0].id == id && table[0].userId == userId then Some(table[0])
    else
      assert forall p :: p in table ==> p == table[0] || p in table[1..];
      FindOwned(table[1..], userId, id)
  }

  /** Since ids are a primary key, the row a lookup finds is the only candidate. */
  lemma FindOwnedUnique(table: seq<Prediction>, p: Prediction)
    requires DistinctIds(table) && p in table
    ensures FindOwned(table, p.userId, p.id) == Some(p)
  {
    var r := FindOwned(table, p.userId, p.id);
    var i :| 0 <= i < |table| && table[i] == r.value;
    var j :| 0 <= j < |table| && table[j] == p;
  }

  /** Under distinct ids, every row matching a lookup is the row it finds. */
  lemma FindOwnedOnlyCandidate(table: seq<Prediction>, userId: int, id: int)
    ensures DistinctIds(table) ==>
              forall p :: p in table && p.id == id && p.userId == userId ==> FindOwned(table, userId, id) == Some(p)
  {
    if DistinctIds(table) {
      forall p | p in table && p.id == id && p.userId == userId
        ensures FindOwned(table, userId, id) == Some(p)
      {
        FindOwnedUnique(table, p);
      }
    }
  }

  // ---------------------------------------------------------------------------
  // Read routes.
  // ---------------------------------------------------------------------------

  /**
   * `GET /predictions`: the caller's predictions and nobody else's, every one
   * of them, each without an image link, in the order the table holds them.
   */
  function GetUserPredictions(table: seq<Prediction>, userId: int): (r: seq<PredictionRecord>)
    ensures |r| == |Owned(table, userId)|
    ensures forall rec :: rec in r ==>
              rec.imageUrl == None
              && exists p :: p in table && p.userId == userId && rec == FromOrmWithImage(p)
    ensures forall p :: p in table && p.userId == userId ==> FromOrmWithImage(p) in r
    ensures IdsIncreasing(table) ==> forall i, j :: 0 <= i < j < |r| ==> r[i].id < r[j].id
  {
    var owned := Owned(table, userId);
    SummariesCoverRows(owned, Summaries(owned));
    OwnedKeepsOrder(table, userId);
    Summaries(owned)
  }

  /** The list projection of rows, one record without image link per row. */
  function Summaries(ps: seq<Prediction>): (r: seq<PredictionRecord>)
    ensures |r| == |ps|
    ensures forall i :: 0 <= i < |r| ==>
              r[i].id == ps[i].id && r[i].inputData == ps[i].inputData
              && r[i].outputData == ps[i].outputData && r[i].timestamp == ps[i].timestamp
              && r[i].imageUrl == None
  {
    seq(|ps|, i requires 0 <= i < |ps| => FromOrmWithImage(ps[i], false))
  }

  /** The list projection holds the record of every row it projects, and no other record. */
  lemma SummariesCoverRows(owned: seq<Prediction>, r: seq<PredictionRecord>)
    requires r == Summaries(owned)
    ensures forall p :: p in owned ==> FromOrmWithImage(p) in r
    ensures forall rec :: rec in r ==> exists p :: p in owned && rec == FromOrmWithImage(p)
  {
    forall p | p in owned ensures FromOrmWithImage(p) in r {
      var i :| 0 <= i < |owned| && owned[i] == p;
      assert r[i] == FromOrmWithImage(p);
    }
    forall rec | rec in r ensures exists p :: p in owned && rec == FromOrmWithImage(p) {
      var i :| 0 <= i < |r| && r[i] == rec;
      assert owned[i] in owned;
    }
  }

  /**
   * `GET /predictions/{id}`: the caller's prediction with that id, with its
   * image link; a missing id and another user's id fail alike.
   */
  function GetPredictionById(table: seq<Prediction>, userId: int, id: int): (r: Result<PredictionRecord, HttpError>)
    ensures r.Success? <==> exists p :: p in table && p.id == id && p.userId == userId
    ensures r.Success? ==>
              exists p :: p in table && p.id == id && p.userId == userId && r.value == FromOrmWithImage(p, true)
    ensures r.Success? ==> r.value.id == id && r.value.imageUrl == Some(ImageUrl(id as nat))
    ensures r.Failure? ==> r.error == PredictionNotFound
  {
    match FindOwned(table, userId, id)
    case None => Failure(PredictionNotFound)
    case Some(p) => Success(FromOrmWithImage(p, true))
  }

  /**
   * `GET /predictions/{id}/image`: the bytes stored with the caller's
   * prediction; fails alike when the row is missing, foreign, or holds no
   * (or an empty) image.
   */
  function GetPredictionImage(table: seq<Prediction>, userId: int, id: int): (r: Result<seq<Byte>, HttpError>)
    ensures r.Success? ==>
              |r.value| > 0
              && exists p :: p in table && p.id == id && p.userId == userId && p.imageData == Some(r.value)
    ensures DistinctIds(table) ==>
              (r.Success? <==>
                 exists p :: p in table && p.id == id && p.userId == userId
                             && p.imageData.Some? && |p.imageData.value| > 0)
    ensures r.Failure? ==> r.error == ImageNotFound
  {
    var found := FindOwned(table, userId, id);
    FindOwnedOnlyCandidate(table, userId, id);
    if found.None? || found.value.imageData.None? || |found.value.imageData.value| == 0 then
      Failure(ImageNotFound)
    else
      Success(found.value.imageData.value)
  }

  /**
   * Ownership cannot be told from absence: asking for another user's
   * prediction gives exactly the answers given for an id that does not exist.
   */
  lemma ForeignIdLooksMissing(table: seq<Prediction>, userId: int, p: Prediction)
    requires DistinctIds(table) && p in table && p.userId != userId
    ensures GetPredictionById(table, userId, p.id) == GetPredictionById([], userId, p.id)
    ensures GetPredictionImage(table, userId, p.id) == GetPredictionImage([], userId, p.id)
  {
    forall q | q in table && q.id == p.id ensures q.userId != userId {
      var i :| 0 <= i < |table| && table[i] == q;
      var j :| 0 <= j < |table| && table[j] == p;
    }
  }

  /** What the two id-based routes answer once the lookup has found a row. */
  lemma FoundRowReads(table: seq<Prediction>, row: Prediction)
    requires FindOwned(table, row.userId, row.id) == Some(row)
    ensures GetPredictionById(table, row.userId, row.id) == Success(FromOrmWithImage(row, true))
    ensures GetPredictionImage(table, row.userId, row.id) ==
              if row.imageData.Some? && |row.imageData.value| > 0 then Success(row.imageData.value)
              else Failure(ImageNotFound)
  {
  }

  // ---------------------------------------------------------------------------
  // Statistics: the group-by count behind `GET /stats`.
  // ---------------------------------------------------------------------------

  /** How many of `ps` carry the label `result`. */
  function LabelCount(ps: seq<Prediction>, result: string): (n: nat)
    ensures n <= |ps|
    ensures n > 0 <==> exists p :: p in ps && p.outputData.result == result
  {
    if ps == [] then 0
    else
      var init := ps[..|ps| - 1];
      assert forall p :: p in ps ==> p in init || p == ps[|ps| - 1];
      LabelCount(init, result) + (if ps[|ps| - 1].outputData.result == result then 1 else 0)
  }

  /** The distinct labels among `ps`. */
  function LabelsOf(ps: seq<Prediction>): set<string>
  {
    set p | p in ps :: p.outputData.result
  }

  /** `GROUP BY output_data["result"]` with `count(id)`, as a dictionary. */
  function StatsOf(ps: seq<Prediction>): (m: map<string, nat>)
    ensures forall l :: l in m <==> exists p :: p in ps && p.outputData.result == l
    ensures forall l :: l in m ==> m[l] == LabelCount(ps, l) && m[l] >= 1
  {
    map l | l in LabelsOf(ps) :: LabelCount(ps, l)
  }

  /**
   * `GET /stats`: for each label among the caller's predictions, how many
   * there are; labels without predictions are absent.
   */
  function GetPredictionStats(table: seq<Prediction>, userId: int): (m: map<string, nat>)
    ensures forall l :: l in m <==> exists p :: p in table && p.userId == userId && p.outputData.result == l
    ensures forall l :: l in m ==> 1 <= m[l] <= |Owned(table, userId)|
    ensures (forall p :: p in table ==> p.userId != userId) ==> m == map[]
  {
    StatsOf(Owned(table, userId))
  }

  /** The sum of the counts in a dictionary of counts. */
  ghost function SumValues(m: map<string, nat>): nat
    decreases |m|
  {
    if m == map[] then 0
    else
      var l :| l in m;
      assert m.Keys == (m - {l}).Keys + {l};
      m[l] + SumValues(m - {l})
  }

  /** The sum does not depend on which key it starts from. */
  lemma {:induction false} SumValuesRemove(m: map<string, nat>, l: string)
    requires l in m
    ensures SumValues(m) == m[l] + SumValues(m - {l})
    decreases |m|
  {
    var k :| k in m && SumValues(m) == m[k] + SumValues(m - {k});
    if k != l {
      assert m.Keys == (m - {k}).Keys + {k};
      assert m.Keys == (m - {l}).Keys + {l};
      SumValuesRemove(m - {k}, l);
      SumValuesRemove(m - {l}, k);
      assert m - {k} - {l} == m - {l} - {k};
    }
  }

  /** Raising one count by one raises the sum by one. */
  lemma SumValuesBump(m: map<string, nat>, l: string, c: nat)
    requires l in m ==> m[l] == c
    requires l !in m ==> c == 0
    ensures SumValues(m[l := c + 1]) == SumValues(m) + 1
  {
    var m' := m[l := c + 1];
    SumValuesRemove(m', l);
    assert m' - {l} == m - {l};
    if l in m {
      SumValuesRemove(m, l);
    } else {
      assert m - {l} == m;
    }
  }

  /** Adding one prediction bumps the count of its label and leaves the others. */
  lemma {:induction false} StatsOfSnoc(ps: seq<Prediction>, p: Prediction)
    ensures StatsOf(ps + [p]) ==
              StatsOf(ps)[p.outputData.result := LabelCount(ps, p.outputData.result) + 1]
  {
    var l := p.outputData.result;
    var bumped := StatsOf(ps)[l := LabelCount(ps, l) + 1];
    LabelsOfSnoc(ps, p);
    assert StatsOf(ps + [p]).Keys == bumped.Keys;
    forall k | k in bumped ensures StatsOf(ps + [p])[k] == bumped[k] {
      LabelCountSnoc(ps, p, k);
    }
  }

  lemma LabelsOfSnoc(ps: seq<Prediction>, p: Prediction)
    ensures LabelsOf(ps + [p]) == LabelsOf(ps) + {p.outputData.result}
  {
    assert forall q :: q in ps + [p] <==> q in ps || q == p;
  }

  lemma LabelCountSnoc(ps: seq<Prediction>, p: Prediction, result: string)
    ensures LabelCount(ps + [p], result) == LabelCount(ps, result) + (if p.outputData.result == result then 1 else 0)
  {
    assert (ps + [p])[..|ps|] == ps;
  }

  /** The counts add up to the number of predictions counted. */
  lemma {:induction false} StatsOfTotal(ps: seq<Prediction>)
    ensures SumValues(StatsOf(ps)) == |ps|
  {
    if ps != [] {
      var init, p := ps[..|ps| - 1], ps[|ps| - 1];
      assert ps == init + [p];
      var m, l := StatsOf(init), p.outputData.result;
      var c := LabelCount(init, l);
      StatsOfTotal(init);
      StatsOfSnoc(init, p);
      var m' := StatsOf(ps);
      assert m' == m[l := c + 1];
      assert l !in m ==> c == 0;
      SumValuesBump(m, l, c);
      assert SumValues(m') == |init| + 1;
    }
  }

  /** The caller's counts add up to the number of the caller's predictions. */
  lemma StatsSumToOwnedCount(table: seq<Prediction>, userId: int)
    ensures SumValues(GetPredictionStats(table, userId)) == |Owned(table, userId)|
  {
    StatsOfTotal(Owned(table, userId));
  }

  // ---------------------------------------------------------------------------
  // Creating predictions: what one committed insert does to the reads.
  // ---------------------------------------------------------------------------

  /** Inserting a row leaves the owner's earlier rows in place and adds it at the end when it is theirs. */
  lemma {:induction false} OwnedSnoc(table: seq<Prediction>, p: Prediction, userId: int)
    ensures Owned(table + [p], userId) == Owned(table, userId) + (if p.userId == userId then [p] else [])
  {
    assert (table + [p])[..|table|] == table;
  }

  /** Looking up an id other than the new row's gives what it gave before the insert. */
  lemma {:induction false} FindOwnedSnoc(table: seq<Prediction>, p: Prediction, userId: int, id: int)
    requires p.id != id
    ensures FindOwned(table + [p], userId, id) == FindOwned(table, userId, id)
  {
    if table != [] {
      assert (table + [p])[1..] == table[1..] + [p];
      FindOwnedSnoc(table[1..], p, userId, id);
    }
  }

  /**
   * After the insert, the owner reads back the row's projection and its
   * bytes (a 404 for an empty upload), and every other user gets the same
   * 404s as for an id that does not exist.
   */
  lemma CreateThenRead(table: seq<Prediction>, p: Prediction, bytes: seq<Byte>)
    requires IdsIncreasing(table) && IdsBelow(table, p.id)
    requires p.imageData == Some(bytes)
    ensures GetPredictionById(table + [p], p.userId, p.id) == Success(FromOrmWithImage(p, true))
    ensures GetPredictionImage(table + [p], p.userId, p.id) ==
              if |bytes| > 0 then Success(bytes) else Failure(ImageNotFound)
    ensures forall v :: v != p.userId ==>
              GetPredictionById(table + [p], v, p.id) == GetPredictionById([], v, p.id)
              && GetPredictionImage(table + [p], v, p.id) == GetPredictionImage([], v, p.id)
  {
    AppendKeepsIdsIncreasing(table, p, p.id);
    IncreasingIdsAreDistinct(table + [p]);
    FindOwnedUnique(table + [p], p);
    assert forall q :: q in table ==> q.id < p.id;
  }

  /** An insert leaves every earlier answer of the id-based routes as it was. */
  lemma CreateKeepsEarlierReads(table: seq<Prediction>, p: Prediction, userId: int, id: int)
    requires p.id != id
    ensures GetPredictionById(table + [p], userId, id) == GetPredictionById(table, userId, id)
    ensures GetPredictionImage(table + [p], userId, id) == GetPredictionImage(table, userId, id)
  {
    FindOwnedSnoc(table, p, userId, id);
  }

  /** An insert adds one entry, at the end, to its owner's list only. */
  lemma CreateAppendsToOwnersList(table: seq<Prediction>, p: Prediction, userId: int)
    ensures GetUserPredictions(table + [p], userId) ==
              GetUserPredictions(table, userId) + (if p.userId == userId then [FromOrmWithImage(p)] else [])
  {
    OwnedSnoc(table, p, userId);
    SummariesSnoc(Owned(table, userId), p);
  }

  /** Projecting one more row adds its record at the end. */
  lemma SummariesSnoc(ps: seq<Prediction>, p: Prediction)
    ensures Summaries(ps + [p]) == Summaries(ps) + [FromOrmWithImage(p)]
  {
  }

  /** An insert raises its label's count in its owner's statistics by one. */
  lemma CreateBumpsOwnersStats(table: seq<Prediction>, p: Prediction)
    ensures GetPredictionStats(table + [p], p.userId) ==
              GetPredictionStats(table, p.userId)[p.outputData.result :=
                LabelCount(Owned(table, p.userId), p.outputData.result) + 1]
  {
    var before := Owned(table, p.userId);
    OwnedSnoc(table, p, p.userId);
    assert Owned(table + [p], p.userId) == before + [p];
    StatsOfSnoc(before, p);
  }

  /** An insert leaves the statistics of every other user as they were. */
  lemma CreateKeepsOthersStats(table: seq<Prediction>, p: Prediction, userId: int)
    requires userId != p.userId
    ensures GetPredictionStats(table + [p], userId) == GetPredictionStats(table, userId)
  {
    OwnedSnoc(table, p, userId);
    assert Owned(table + [p], userId) == Owned(table, userId);
  }

  // ---------------------------------------------------------------------------
  // Batches.
  // ---------------------------------------------------------------------------

  /** How many files, from the first, the classifier accepts before the first one it fails on. */
  function ClassifiedPrefix(files: seq<UploadFile>, runModel: seq<Byte> -> Result<string, ModelError>): (k: nat)
    ensures k <= |files|
    ensures forall i :: 0 <= i < k ==> runModel(files[i].content).Success?
    ensures k < |files| ==> runModel(files[k].content).Failure?
  {
    if files == [] || runModel(files[0].content).Failure? then 0
    else 1 + ClassifiedPrefix(files[1..], runModel)
  }

  /** The rows a batch inserts, one per file in order, ids counting up from `firstId`. */
  function BatchRecords(userId: int, files: seq<UploadFile>, runModel: seq<Byte> -> Result<string, ModelError>,
                        clock: nat -> Timestamp, firstId: nat): (rows: seq<Prediction>)
    requires forall i :: 0 <= i < |files| ==> runModel(files[i].content).Success?
    ensures |rows| == |files|
    ensures forall i :: 0 <= i < |rows| ==>
              rows[i].id == firstId + i && rows[i].userId == userId && rows[i].timestamp == clock(i)
              && rows[i].inputData.filename == files[i].filename
              && rows[i].imageData == Some(files[i].content)
              && runModel(files[i].content) == Success(rows[i].outputData.result)
  {
    var rows := seq(|files|, i requires 0 <= i < |files| =>
      NewPrediction(firstId + i, userId, files[i].filename, files[i].content,
                    runModel(files[i].content).value, clock(i)));
    assert forall i :: 0 <= i < |rows| ==> rows[i].outputData.result == runModel(files[i].content).value;
    rows
  }

  /** The answer to a batch: one entry per file, in order, with its id and its image link. */
  function BatchEntries(files: seq<UploadFile>, runModel: seq<Byte> -> Result<string, ModelError>,
                        firstId: nat): (r: seq<BatchEntry>)
    requires forall i :: 0 <= i < |files| ==> runModel(files[i].content).Success?
    ensures |r| == |files|
    ensures forall i :: 0 <= i < |r| ==>
              r[i].filename == files[i].filename && r[i].result == runModel(files[i].content).value
    ensures forall i, j :: 0 <= i < |r| && 0 <= j < |r| && i != j ==>
              r[i].predictionId != r[j].predictionId && r[i].imageUrl != r[j].imageUrl
  {
    var r := seq(|files|, i requires 0 <= i < |files| =>
      BatchEntry(files[i].filename, runModel(files[i].content).value, firstId + i, ImageUrl(firstId + i)));
    forall i, j | 0 <= i < |r| && 0 <= j < |r| && i != j ensures r[i].imageUrl != r[j].imageUrl {
      assert r[i].imageUrl == ImageUrl(firstId + i) && r[j].imageUrl == ImageUrl(firstId + j);
      ImageUrlInjective(firstId + i, firstId + j);
    }
    r
  }

  /**
   * Each entry of a batch answer describes the row stored for its file: same
   * id, filename and label, the file's bytes, and an image link that is the
   * row's own link and routes back to the id.
   */
  lemma BatchEntryMatchesRow(userId: int, files: seq<UploadFile>, runModel: seq<Byte> -> Result<string, ModelError>,
                             clock: nat -> Timestamp, firstId: nat, j: nat)
    requires forall i :: 0 <= i < |files| ==> runModel(files[i].content).Success?
    requires j < |files|
    ensures var e := BatchEntries(files, runModel, firstId)[j];
            var row := BatchRecords(userId, files, runModel, clock, firstId)[j];
            e.predictionId == row.id && row.userId == userId
            && e.filename == row.inputData.filename && e.result == row.outputData.result
            && row.imageData == Some(files[j].content)
            && FromOrmWithImage(row, true).imageUrl == Some(e.imageUrl)
            && ParseImageUrl(e.imageUrl) == Some(e.predictionId)
  {
    ImageUrlRoundTrip(firstId + j);
  }

  /**
   * After a batch, the owner finds the row stored for file j under the id
   * returned for it, with its image link, and the image route returns the
   * file's bytes (a 404 for an empty file).
   */
  lemma BatchReadBack(table: seq<Prediction>, userId: int, files: seq<UploadFile>,
                      runModel: seq<Byte> -> Result<string, ModelError>, clock: nat -> Timestamp,
                      firstId: nat, j: nat)
    requires IdsIncreasing(table) && IdsBelow(table, firstId)
    requires forall i :: 0 <= i < |files| ==> runModel(files[i].content).Success?
    requires j < |files|
    ensures var rows := BatchRecords(userId, files, runModel, clock, firstId);
            GetPredictionById(table + rows, userId, firstId + j) == Success(FromOrmWithImage(rows[j], true))
            && GetPredictionImage(table + rows, userId, firstId + j) ==
                 (if |files[j].content| > 0 then Success(files[j].content) else Failure(ImageNotFound))
  {
    var rows := BatchRecords(userId, files, runModel, clock, firstId);
    var row := rows[j];
    BatchRowFound(table, userId, files, runModel, clock, firstId, j);
    assert row.userId == userId && row.id == firstId + j && row.imageData == Some(files[j].content);
    FoundRowReads(table + rows, row);
  }

  /** A batch's rows are owned by the caller and numbered consecutively from `firstId`. */
  lemma BatchRecordsIds(userId: int, files: seq<UploadFile>, runModel: seq<Byte> -> Result<string, ModelError>,
                        clock: nat -> Timestamp, firstId: nat)
    requires forall i :: 0 <= i < |files| ==> runModel(files[i].content).Success?
    ensures var rows := BatchRecords(userId, files, runModel, clock, firstId);
            |rows| == |files|
            && (forall i :: 0 <= i < |rows| ==> rows[i].id == firstId + i && rows[i].userId == userId)
            && IdsIncreasing(rows)
  {
  }

  /** The owner's lookup of the id given to file j finds the row stored for file j. */
  lemma BatchRowFound(table: seq<Prediction>, userId: int, files: seq<UploadFile>,
                      runModel: seq<Byte> -> Result<string, ModelError>, clock: nat -> Timestamp,
                      firstId: nat, j: nat)
    requires IdsIncreasing(table) && IdsBelow(table, firstId)
    requires forall i :: 0 <= i < |files| ==> runModel(files[i].content).Success?
    requires j < |files|
    ensures var rows := BatchRecords(userId, files, runModel, clock, firstId);
            DistinctIds(table + rows)
            && FindOwned(table + rows, userId, firstId + j) == Some(rows[j])
  {
    var rows := BatchRecords(userId, files, runModel, clock, firstId);
    var t := table + rows;
    BatchRecordsIds(userId, files, runModel, clock, firstId);
    ConcatKeepsIdsIncreasing(table, rows, firstId);
    IncreasingIdsAreDistinct(t);
    assert t[|table| + j] == rows[j];
    FindOwnedUnique(t, rows[j]);
  }

  /** Handling one more file extends both the inserted rows and the answer by that file's row and entry. */
  lemma BatchSnoc(userId: int, files: seq<UploadFile>, runModel: seq<Byte> -> Result<string, ModelError>,
                  clock: nat -> Timestamp, firstId: nat, i: nat)
    requires i < |files|
    requires forall j :: 0 <= j <= i ==> runModel(files[j].content).Success?
    ensures BatchRecords(userId, files[..i + 1], runModel, clock, firstId) ==
              BatchRecords(userId, files[..i], runModel, clock, firstId)
              + [NewPrediction(firstId + i, userId, files[i].filename, files[i].content,
                               runModel(files[i].content).value, clock(i))]
    ensures BatchEntries(files[..i + 1], runModel, firstId) ==
              BatchEntries(files[..i], runModel, firstId)
              + [BatchEntry(files[i].filename, runModel(files[i].content).value, firstId + i, ImageUrl(firstId + i))]
  {
  }

  // ---------------------------------------------------------------------------
  // The table and the two routes that write to it.
  // ---------------------------------------------------------------------------

  /**
   * The `predictions` table as the create routes see it: rows in insertion
   * order and the id the next committed row receives. No route updates or
   * deletes a row.
   */
  class PredictionStore {
    var records: seq<Prediction>
    var nextId: nat

    ghost predicate Valid()
      reads this
    {
      1 <= nextId && IdsIncreasing(records) && IdsBelow(records, nextId)
    }

    constructor ()
      ensures Valid() && records == [] && nextId == 1
    {
      records := [];
      nextId := 1;
    }

    /**
     * `POST /predict`: classify the upload, insert one row owned by the
     * caller holding its name, its label and its bytes, and answer the
     * label. A classifier failure raises before anything is written.
     */
    method Predict(userId: int, file: UploadFile, runModel: seq<Byte> -> Result<string, ModelError>, now: Timestamp)
      returns (r: Result<PredictionOutput, ModelError>)
      requires Valid()
      modifies this
      ensures Valid()
      ensures runModel(file.content).Failure? ==>
                r == Failure(runModel(file.content).error)
                && records == old(records) && nextId == old(nextId)
      ensures runModel(file.content).Success? ==>
                r == Success(PredictionOutput(runModel(file.content).value))
                && records == old(records) + [NewPrediction(old(nextId), userId, file.filename, file.content,
                                                            runModel(file.content).value, now)]
                && nextId == old(nextId) + 1
    {
      var outcome := runModel(file.content);
      if outcome.Failure? {
        return Failure(outcome.error);
      }
      var pred := NewPrediction(nextId, userId, file.filename, file.content, outcome.value, now);
      AppendKeepsIdsIncreasing(records, pred, nextId);
      records := records + [pred];
      nextId := nextId + 1;
      r := Success(PredictionOutput(outcome.value));
    }

    /**
     * `POST /predict-multiple`: classify and commit the files one at a time,
     * in order. If the classifier fails on file k, the rows of files 0..k-1
     * stay committed and the request fails with that error; otherwise the
     * answer lists every file with its label, its new id and its image link.
     */
    method PredictMultiple(userId: int, files: seq<UploadFile>,
                           runModel: seq<Byte> -> Result<string, ModelError>, clock: nat -> Timestamp)
      returns (r: Result<seq<BatchEntry>, ModelError>)
      requires Valid()
      modifies this
      ensures Valid()
      ensures var k := ClassifiedPrefix(files, runModel);
              records == old(records) + BatchRecords(userId, files[..k], runModel, clock, old(nextId))
              && nextId == old(nextId) + k
      ensures var k := ClassifiedPrefix(files, runModel);
              if k == |files| then r == Success(BatchEntries(files, runModel, old(nextId)))
              else r == Failure(runModel(files[k].content).error)
    {
      var results: seq<BatchEntry> := [];
      var i := 0;
      while i < |files|
        invariant 0 <= i <= |files|
        invariant Valid()
        invariant forall j :: 0 <= j < i ==> runModel(files[j].content).Success?
        invariant records == old(records) + BatchRecords(userId, files[..i], runModel, clock, old(nextId))
        invariant nextId == old(nextId) + i
        invariant results == BatchEntries(files[..i], runModel, old(nextId))
      {
        var outcome := runModel(files[i].content);
        if outcome.Failure? {
          return Failure(outcome.error);
        }
        var pred := NewPrediction(nextId, userId, files[i].filename, files[i].content, outcome.value, clock(i));
        AppendKeepsIdsIncreasing(records, pred, nextId);
        BatchSnoc(userId, files, runModel, clock, old(nextId), i);
        records := records + [pred];
        results := results + [BatchEntry(files[i].filename, outcome.value, nextId, ImageUrl(nextId))];
        nextId := nextId + 1;
        i := i + 1;
      }
      assert files[..i] == files;
      r := Success(results);
    }
  }
}
