/** The main loop of the S3 scanner: for every sampled object, folder by
    folder, one result record built from the object's metadata and the model
    reply (has_pii, the mean confidence, the token counts) or the error
    message; the confirmation prompt before the loop; and the run as a whole,
    which either writes all records or none. The clock, the presigner, the
    answer typed at the prompt and the services are inputs. */
module S3Scan {
  import opened Common
  import Paths
  import ModelIds
  import Cli
  import opened S3Sampling
  import opened S3Detect

  /** The command-line arguments the loop depends on. */
  datatype ScanSettings = ScanSettings(bucket: string, region: string, rate: real, limit: int,
                                       debug: bool, bypass: bool)

  /** The world the scanner talks to: the detection services, random.sample,
      the presigner (None when presigning fails) and the clock, read once per
      record and indexed by the record's position. */
  datatype S3Env = S3Env(detect: DetectServices,
                         pickObjects: (seq<S3Object>, nat) -> seq<S3Object>,
                         presign: string -> Option<string>,
                         clock: nat -> string)

  function OptText(v: Option<string>): Json
  {
    match v
    case None => JNull
    case Some(s) => JStr(s)
  }

  /** The fields set before the model is asked. */
  function BaseRecord(st: ScanSettings, env: S3Env, fs: FolderSample, obj: S3Object, ext: Option<string>): (r: Record)
    ensures r.Keys == {"source_type", "region", "bucket", "folder", "sample_size", "total_objects",
                       "object_key", "file_type", "file_size"} + (if st.debug then {"presigned_url"} else {})
  {
    var r := map["source_type" := JStr("S3"),
                 "region" := JStr(st.region),
                 "bucket" := JStr(st.bucket),
                 "folder" := JStr(fs.folder),
                 "sample_size" := JNum(fs.sampleSize as real),
                 "total_objects" := JNum(fs.totalObjects as real),
                 "object_key" := JStr(obj.key),
                 "file_type" := OptText(ext),
                 "file_size" := JNum(obj.size as real)];
    if st.debug then r["presigned_url" := OptText(env.presign(obj.key))] else r
  }

  // ----- The mean confidence -----

  /** len() of a JSON value; None when the value has no length. */
  function JsonLen(v: Json): Option<nat>
  {
    match v
    case JStr(s) => Some(|s|)
    case JArr(items) => Some(|items|)
    case JObj(fields) => Some(|fields|)
    case _ => None
  }

  /** cat['confidence_score'] as a summand: a number, or a bool counting as
      1 or 0; None when the lookup or the addition raises. */
  function ScoreOf(cat: Json): Option<real>
  {
    if cat.JObj? && "confidence_score" in cat.fields then
      match cat.fields["confidence_score"]
      case JNum(x) => Some(x)
      case JBool(b) => Some(if b then 1.0 else 0.0)
      case _ => None
    else None
  }

  function AddOpt(a: Option<real>, b: Option<real>): Option<real>
  {
    if a.Some? && b.Some? then Some(a.value + b.value) else None
  }

  lemma AddOptSwap(a: Option<real>, b: Option<real>, c: Option<real>)
    ensures AddOpt(a, AddOpt(b, c)) == AddOpt(b, AddOpt(a, c))
  {
  }

  /** The sum of the scores of the categories named in `keys`, in any order;
      None when one of them has no score. */
  ghost function SumOver(cats: map<string, Json>, keys: set<string>): Option<real>
    requires keys <= cats.Keys
    decreases keys
  {
    if keys == {} then Some(0.0)
    else
      var k :| k in keys;
      AddOpt(ScoreOf(cats[k]), SumOver(cats, keys - {k}))
  }

  /** sum(cat['confidence_score'] for cat in categories.values()). */
  ghost function SumScores(cats: map<string, Json>): Option<real>
  {
    SumOver(cats, cats.Keys)
  }

  /** The sum does not depend on which category is taken first. */
  lemma {:induction false} SumOverRemove(cats: map<string, Json>, keys: set<string>, k: string)
    requires keys <= cats.Keys && k in keys
    ensures SumOver(cats, keys) == AddOpt(ScoreOf(cats[k]), SumOver(cats, keys - {k}))
    decreases keys
  {
    var j :| j in keys && SumOver(cats, keys) == AddOpt(ScoreOf(cats[j]), SumOver(cats, keys - {j}));
    if j != k {
      SumOverRemove(cats, keys - {j}, k);
      SumOverRemove(cats, keys - {k}, j);
      assert keys - {j} - {k} == keys - {k} - {j};
      AddOptSwap(ScoreOf(cats[j]), ScoreOf(cats[k]), SumOver(cats, keys - {j} - {k}));
    }
  }

  /** The sum is defined exactly when every category has a score. */
  lemma {:induction false} SumOverDefined(cats: map<string, Json>, keys: set<string>)
    requires keys <= cats.Keys
    ensures SumOver(cats, keys).Some? <==> forall k :: k in keys ==> ScoreOf(cats[k]).Some?
    decreases keys
  {
    if keys != {} {
      var k :| k in keys;
      SumOverRemove(cats, keys, k);
      SumOverDefined(cats, keys - {k});
    }
  }

  /** n copies of x added up. */
  function Times(n: nat, x: real): (r: real)
  {
    if n == 0 then 0.0 else x + Times(n - 1, x)
  }

  lemma {:induction false} TimesIsProduct(n: nat, x: real)
    ensures Times(n, x) == n as real * x
  {
    if n > 0 {
      TimesIsProduct(n - 1, x);
      assert n as real * x == (n - 1) as real * x + x;
    }
  }

  /** When every score is at least lo, the scores of `keys` sum to at least |keys|·lo. */
  lemma {:induction false} SumOverAtLeast(cats: map<string, Json>, keys: set<string>, lo: real)
    requires keys <= cats.Keys
    requires forall k :: k in cats ==> ScoreOf(cats[k]).Some? && lo <= ScoreOf(cats[k]).value
    ensures SumOver(cats, keys).Some?
    ensures Times(|keys|, lo) <= SumOver(cats, keys).value
    decreases keys
  {
    if keys != {} {
      var k :| k in keys;
      SumOverRemove(cats, keys, k);
      SumOverAtLeast(cats, keys - {k}, lo);
      assert |keys| == |keys - {k}| + 1;
    }
  }

  /** When every score is at most hi, the scores of `keys` sum to at most |keys|·hi. */
  lemma {:induction false} SumOverAtMost(cats: map<string, Json>, keys: set<string>, hi: real)
    requires keys <= cats.Keys
    requires forall k :: k in cats ==> ScoreOf(cats[k]).Some? && ScoreOf(cats[k]).value <= hi
    ensures SumOver(cats, keys).Some?
    ensures SumOver(cats, keys).value <= Times(|keys|, hi)
    decreases keys
  {
    if keys != {} {
      var k :| k in keys;
      SumOverRemove(cats, keys, k);
      SumOverAtMost(cats, keys - {k}, hi);
      assert |keys| == |keys - {k}| + 1;
    }
  }

  /** The mean of scores that lie within [lo, hi] lies within [lo, hi]. */
  lemma MeanWithin(cats: map<string, Json>, lo: real, hi: real)
    requires |cats| > 0
    requires forall k :: k in cats ==> ScoreOf(cats[k]).Some? && lo <= ScoreOf(cats[k]).value <= hi
    ensures SumScores(cats).Some?
    ensures lo <= SumScores(cats).value / |cats| as real <= hi
  {
    SumOverAtLeast(cats, cats.Keys, lo);
    SumOverAtMost(cats, cats.Keys, hi);
    var t := SumScores(cats).value;
    var n := |cats|;
    assert |cats.Keys| == n;
    assert Times(n, lo) <= t <= Times(n, hi);
    TimesIsProduct(n, lo);
    TimesIsProduct(n, hi);
    assert n as real > 0.0;
    DivideBounds(t, n as real, lo, hi);
  }

  lemma DivideBounds(t: real, n: real, lo: real, hi: real)
    requires n > 0.0 && n * lo <= t <= n * hi
    ensures lo <= t / n <= hi
  {
    assert (t / n) * n == t;
  }

  /** Two categories scored 1.0 and 0.8. */
  function TwoCategories(): map<string, Json>
  {
    map["name" := JObj(map["confidence_score" := JNum(1.0)]),
        "email" := JObj(map["confidence_score" := JNum(0.8)])]
  }

  lemma SumExample()
    ensures SumScores(TwoCategories()) == Some(1.8)
  {
    var cats := TwoCategories();
    assert ScoreOf(cats["name"]) == Some(1.0) && ScoreOf(cats["email"]) == Some(0.8);
    assert cats.Keys == {"name", "email"};
    assert cats.Keys - {"name"} == {"email"};
    assert {"email"} - {"email"} == {};
    SumOverRemove(cats, {"email"}, "email");
    assert SumOver(cats, {"email"}) == Some(0.8);
    SumOverRemove(cats, cats.Keys, "name");
  }

  lemma MeanExample()
    ensures MeanScore(JObj(TwoCategories())) == Some(0.9)
  {
    SumExample();
    assert |TwoCategories()| == 2;
  }

  /** The summing loop of the generator expression. */
  method SumCategoryScores(cats: map<string, Json>) returns (total: Option<real>)
    ensures total == SumScores(cats)
  {
    var rest := cats.Keys;
    var acc := 0.0;
    while rest != {}
      invariant rest <= cats.Keys
      invariant SumScores(cats) == AddOpt(Some(acc), SumOver(cats, rest))
      decreases rest
    {
      var k :| k in rest;
      SumOverRemove(cats, rest, k);
      var s := ScoreOf(cats[k]);
      if s.None? {
        return None;
      }
      acc := acc + s.value;
      rest := rest - {k};
    }
    total := Some(acc);
  }

  // ----- One record -----

  /** The keys main writes after merging the reply. */
  const DERIVED_KEYS: set<string> := {"has_pii", "confidence_score", "input_token", "output_token", "timestamp"}

  /** The number of categories in a reply; None when the reply has no
      pii_categories key or its value has no len(). */
  function CategoryCount(parsed: map<string, Json>): Option<nat>
  {
    if "pii_categories" in parsed then JsonLen(parsed["pii_categories"]) else None
  }

  /** The confidence_score written when has_pii holds: the mean score of the
      categories; None when they are not a dictionary or one has no score. */
  ghost function MeanScore(cats: Json): Option<real>
  {
    if cats.JObj? && |cats.fields| > 0 && SumScores(cats.fields).Some? then
      Some(SumScores(cats.fields).value / |cats.fields| as real)
    else None
  }

  /** The record of a successful reply; None when reading the categories
      raises (a missing pii_categories key, a value without len(), a
      non-dictionary of categories, or a category without a numeric score).
      The reply's keys override the base fields; has_pii, confidence_score,
      the token counts and the timestamp are written over both. */
  ghost function SuccessRecord(base: Record, reply: ModelReply, timestamp: string): Option<Record>
  {
    match CategoryCount(reply.parsed)
    case None => None
    case Some(n) =>
      var merged := (base + reply.parsed)["has_pii" := JBool(n > 0)];
      var scored :=
        if n == 0 then Some(merged)
        else
          match MeanScore(reply.parsed["pii_categories"])
          case None => None
          case Some(mean) => Some(merged["confidence_score" := JNum(mean)]);
      match scored
      case None => None
      case Some(s) =>
        Some(s["input_token" := JNum(reply.inputTokens as real)]
              ["output_token" := JNum(reply.outputTokens as real)]
              ["timestamp" := JStr(timestamp)])
  }

  /** A reply yields a record unless reading its categories raises. */
  lemma SuccessRecordDefined(base: Record, reply: ModelReply, timestamp: string)
    ensures SuccessRecord(base, reply, timestamp).Some? <==>
      && CategoryCount(reply.parsed).Some?
      && (CategoryCount(reply.parsed).value > 0 ==> MeanScore(reply.parsed["pii_categories"]).Some?)
    ensures "pii_categories" !in reply.parsed ==> SuccessRecord(base, reply, timestamp).None?
  {
  }

  /** has_pii says whether the reply named any category; confidence_score
      is the mean category score when it did, and otherwise is whatever the
      reply said, if anything; the token counts and the timestamp follow. */
  lemma SuccessRecordValues(base: Record, reply: ModelReply, timestamp: string)
    requires SuccessRecord(base, reply, timestamp).Some?
    ensures var r := SuccessRecord(base, reply, timestamp).value;
      var n := CategoryCount(reply.parsed).value;
      && r["has_pii"] == JBool(n > 0)
      && (n > 0 ==> r["confidence_score"] == JNum(MeanScore(reply.parsed["pii_categories"]).value))
      && (n == 0 ==> ("confidence_score" in r <==> "confidence_score" in reply.parsed || "confidence_score" in base))
      && (n == 0 && "confidence_score" in reply.parsed ==> r["confidence_score"] == reply.parsed["confidence_score"])
      && r["input_token"] == JNum(reply.inputTokens as real)
      && r["output_token"] == JNum(reply.outputTokens as real)
      && r["timestamp"] == JStr(timestamp)
  {
  }

  /** A success record holds the base fields, the reply's keys and the
      derived keys, and nothing else; every reply key other than the derived
      ones keeps the reply's value, and every base field the reply does not
      override keeps its value. */
  lemma SuccessRecordKeys(base: Record, reply: ModelReply, timestamp: string)
    requires SuccessRecord(base, reply, timestamp).Some?
    ensures var r := SuccessRecord(base, reply, timestamp).value;
      && r.Keys == base.Keys + reply.parsed.Keys + {"has_pii", "input_token", "output_token", "timestamp"}
           + (if CategoryCount(reply.parsed).value > 0 then {"confidence_score"} else {})
      && (forall k :: k in reply.parsed && k !in DERIVED_KEYS ==> r[k] == reply.parsed[k])
      && (forall k :: k in base && k !in reply.parsed && k !in DERIVED_KEYS ==> r[k] == base[k])
  {
  }

  /** The record of a failed detection: the base fields, the error message
      and the timestamp, and none of the reply's keys. */
  function ErrorRecord(base: Record, message: string, timestamp: string): (r: Record)
    ensures r.Keys == base.Keys + {"error", "timestamp"}
    ensures r["error"] == JStr(message) && r["timestamp"] == JStr(timestamp)
    ensures forall k :: k in base && k != "error" && k != "timestamp" ==> r[k] == base[k]
  {
    base["error" := JStr(message)]["timestamp" := JStr(timestamp)]
  }

  /** The record of one sampled object, the `index`-th of the run; None when
      an exception escapes. */
  ghost function ObjectRecord(st: ScanSettings, env: S3Env, fs: FolderSample, obj: S3Object, index: nat): Option<Record>
  {
    var ext := ExtensionOf(obj.key);
    var base := BaseRecord(st, env, fs, obj, ext);
    ReplyRecord(base, Detect(env.detect, st.bucket, obj.key, ext, st.region, st.rate, st.limit), env.clock(index))
  }

  /** The record for each outcome of the detection. */
  ghost function ReplyRecord(base: Record, d: Detection, timestamp: string): Option<Record>
  {
    match d
    case Detected(reply) => SuccessRecord(base, reply, timestamp)
    case DetectError(message) => Some(ErrorRecord(base, message, timestamp))
    case DetectRaised => None
  }

  /** The extension branches of the main loop. */
  method FileExtension(key: string) returns (ext: Option<string>)
    ensures ext == ExtensionOf(key)
  {
    var filename := Paths.Basename(key);
    if StartsWith(filename, ".") {
      if Count(filename, '.') > 1 {
        ext := Some(AfterLastDot(filename));
      } else {
        ext := None;
      }
    } else if '.' !in filename {
      ext := None;
    } else {
      ext := Some(AfterLastDot(filename));
    }
  }

  /** The assignments to result before the detection call. */
  method StartRecord(st: ScanSettings, env: S3Env, fs: FolderSample, obj: S3Object, ext: Option<string>)
    returns (result: Record)
    ensures result == BaseRecord(st, env, fs, obj, ext)
  {
    result := map[];
    result := result["source_type" := JStr("S3")];
    result := result["region" := JStr(st.region)];
    result := result["bucket" := JStr(st.bucket)];
    result := result["folder" := JStr(fs.folder)];
    result := result["sample_size" := JNum(fs.sampleSize as real)];
    result := result["total_objects" := JNum(fs.totalObjects as real)];
    result := result["object_key" := JStr(obj.key)];
    result := result["file_type" := OptText(ext)];
    result := result["file_size" := JNum(obj.size as real)];
    if st.debug {
      result := result["presigned_url" := OptText(env.presign(obj.key))];
    }
  }

  /** The success branch: merge the reply, then has_pii, the mean
      confidence, the token counts and the timestamp. */
  method FinishSuccess(base: Record, reply: ModelReply, timestamp: string) returns (rec: Option<Record>)
    ensures rec == SuccessRecord(base, reply, timestamp)
  {
    var parsed := reply.parsed;
    var result := base + parsed;
    if "pii_categories" !in parsed {
      return None;
    }
    var n := JsonLen(parsed["pii_categories"]);
    if n.None? {
      return None;
    }
    result := result["has_pii" := JBool(n.value > 0)];
    if n.value > 0 {
      var cats := parsed["pii_categories"];
      if !cats.JObj? {
        return None;
      }
      var total := SumCategoryScores(cats.fields);
      if total.None? {
        return None;
      }
      result := result["confidence_score" := JNum(total.value / n.value as real)];
    }
    result := result["input_token" := JNum(reply.inputTokens as real)];
    result := result["output_token" := JNum(reply.outputTokens as real)];
    result := result["timestamp" := JStr(timestamp)];
    rec := Some(result);
  }

  /** A record maker: the record, or None for an exception, of an object
      of a folder entry made at a given position in the run. */
  type RecordMaker = (FolderSample, S3Object, nat) -> Option<Record>

  /** The record maker of a run with these settings and this environment. */
  ghost function MakerOf(st: ScanSettings, env: S3Env): RecordMaker
  {
    (fs: FolderSample, obj: S3Object, k: nat) => ObjectRecord(st, env, fs, obj, k)
  }

  /** make builds the records of a run with these settings and this environment. */
  ghost predicate MakesRecords(make: RecordMaker, st: ScanSettings, env: S3Env)
  {
    forall fs: FolderSample, obj: S3Object, k: nat {:trigger ObjectRecord(st, env, fs, obj, k)} ::
      make(fs, obj, k) == ObjectRecord(st, env, fs, obj, k)
  }

  lemma MakerOfMakesRecords(st: ScanSettings, env: S3Env)
    ensures MakesRecords(MakerOf(st, env), st, env)
  {
  }

  /** The body of main's inner loop for one object: the record it appends,
      or None when the object raises. */
  method ProcessObject(st: ScanSettings, env: S3Env, fs: FolderSample, obj: S3Object, index: nat,
                       ghost make: RecordMaker)
    returns (rec: Option<Record>)
    requires MakesRecords(make, st, env)
    ensures rec == make(fs, obj, index)
  {
    var ext := FileExtension(obj.key);
    var result := StartRecord(st, env, fs, obj, ext);
    var response := DetectPii(env.detect, st.bucket, obj.key, ext, st.region, st.rate, st.limit);
    match response {
      case Detected(reply) =>
        rec := FinishSuccess(result, reply, env.clock(index));
      case DetectError(message) =>
        result := result["error" := JStr(message)];
        result := result["timestamp" := JStr(env.clock(index))];
        rec := Some(result);
      case DetectRaised =>
        rec := None;
    }
    assert rec == ObjectRecord(st, env, fs, obj, index);
  }

  // ----- All records, folder by folder -----

  /** The objects of one folder entry, each paired with its entry. */
  function FolderPairs(fs: FolderSample): (ps: seq<(FolderSample, S3Object)>)
    ensures |ps| == |fs.sampled|
    ensures forall i :: 0 <= i < |ps| ==> ps[i] == (fs, fs.sampled[i])
  {
    seq(|fs.sampled|, i requires 0 <= i < |fs.sampled| => (fs, fs.sampled[i]))
  }

  /** The order the loop visits objects in: folder by folder, and within a
      folder in sample order. */
  function Pairs(data: seq<FolderSample>): seq<(FolderSample, S3Object)>
  {
    if data == [] then []
    else Pairs(data[..|data| - 1]) + FolderPairs(data[|data| - 1])
  }

  /** sum(folder['sample_size'] for folder in sample_data.values()). */
  function TotalSamples(data: seq<FolderSample>): nat
  {
    if data == [] then 0
    else TotalSamples(data[..|data| - 1]) + data[|data| - 1].sampleSize
  }

  /** The loop visits exactly the announced number of objects when every
      entry's sample_size is the size of its draw. */
  lemma {:induction false} PairsCount(data: seq<FolderSample>)
    requires forall i :: 0 <= i < |data| ==> data[i].sampleSize == |data[i].sampled|
    ensures |Pairs(data)| == TotalSamples(data)
  {
    if data != [] {
      PairsCount(data[..|data| - 1]);
    }
  }


  /** The records of the objects in `pairs`, the k-th made at position k;
      None as soon as one of them raises. */
  function Records(make: RecordMaker, pairs: seq<(FolderSample, S3Object)>): Option<seq<Record>>
  {
    if pairs == [] then Some([])
    else
      match Records(make, pairs[..|pairs| - 1])
      case None => None
      case Some(rs) =>
        var (fs, obj) := pairs[|pairs| - 1];
        match make(fs, obj, |pairs| - 1)
        case None => None
        case Some(r) => Some(rs + [r])
  }

  /** One record per object, in visiting order, the k-th made from the k-th
      object at position k; and no records at all as soon as any object raises. */
  lemma {:induction false} RecordsShape(make: RecordMaker, pairs: seq<(FolderSample, S3Object)>)
    ensures Records(make, pairs).Some? <==>
      forall k :: 0 <= k < |pairs| ==> make(pairs[k].0, pairs[k].1, k).Some?
    ensures Records(make, pairs).Some? ==>
      var rs := Records(make, pairs).value;
      && |rs| == |pairs|
      && forall k :: 0 <= k < |pairs| ==> rs[k] == make(pairs[k].0, pairs[k].1, k).value
  {
    if pairs != [] {
      var prefix := pairs[..|pairs| - 1];
      RecordsShape(make, prefix);
      assert forall k :: 0 <= k < |prefix| ==> prefix[k] == pairs[k];
    }
  }

  lemma {:induction false} RecordsAbort(make: RecordMaker, pairs: seq<(FolderSample, S3Object)>, n: nat)
    requires n <= |pairs|
    requires Records(make, pairs[..n]).None?
    ensures Records(make, pairs).None?
    decreases |pairs| - n
  {
    if n < |pairs| {
      assert pairs[..n + 1][..n] == pairs[..n];
      RecordsAbort(make, pairs, n + 1);
    } else {
      assert pairs[..n] == pairs;
    }
  }

  lemma {:induction false} RecordsLength(make: RecordMaker, pairs: seq<(FolderSample, S3Object)>)
    ensures Records(make, pairs).Some? ==> |Records(make, pairs).value| == |pairs|
  {
    if pairs != [] {
      RecordsLength(make, pairs[..|pairs| - 1]);
    }
  }

  lemma {:induction false} PairsPrefix(data: seq<FolderSample>, i: nat)
    requires i <= |data|
    ensures Pairs(data[..i]) <= Pairs(data)
    decreases |data| - i
  {
    if i < |data| {
      assert data[..i + 1][..i] == data[..i];
      PairsPrefix(data, i + 1);
    } else {
      assert data[..i] == data;
    }
  }

  /** One more object: its record is appended, or the whole run raises. */
  lemma RecordsStep(make: RecordMaker, pairs: seq<(FolderSample, S3Object)>, p: (FolderSample, S3Object), rs: seq<Record>)
    requires Records(make, pairs) == Some(rs)
    ensures Records(make, pairs + [p]) ==
      if make(p.0, p.1, |pairs|).Some? then Some(rs + [make(p.0, p.1, |pairs|).value]) else None
  {
    assert (pairs + [p])[..|pairs|] == pairs;
  }

  lemma FolderPairsStep(done: seq<(FolderSample, S3Object)>, fs: FolderSample, j: nat)
    requires j < |fs.sampled|
    ensures done + FolderPairs(fs)[..j + 1] == (done + FolderPairs(fs)[..j]) + [(fs, fs.sampled[j])]
  {
    assert FolderPairs(fs)[..j + 1] == FolderPairs(fs)[..j] + [(fs, fs.sampled[j])];
  }

  lemma ConcatPrefix<T>(a: seq<T>, b: seq<T>, j: nat)
    requires j <= |b|
    ensures (a + b)[..|a| + j] == a + b[..j]
  {
  }


  /** The inner loop of main over one folder's sampled objects, continuing
      the records of the objects `done` before it. */
  method ScanFolder(st: ScanSettings, env: S3Env, fs: FolderSample,
                    ghost make: RecordMaker, ghost done: seq<(FolderSample, S3Object)>, results: seq<Record>)
    returns (out: Option<seq<Record>>)
    requires MakesRecords(make, st, env)
    requires Records(make, done) == Some(results)
    ensures out == Records(make, done + FolderPairs(fs))
  {
    ghost var visited := done;
    var acc := results;
    var j := 0;
    while j < |fs.sampled|
      invariant 0 <= j <= |fs.sampled|
      invariant visited == done + FolderPairs(fs)[..j]
      invariant Records(make, visited) == Some(acc)
    {
      var obj := fs.sampled[j];
      RecordsLength(make, visited);
      var rec := ProcessObject(st, env, fs, obj, |acc|, make);
      RecordsStep(make, visited, (fs, obj), acc);
      FolderPairsStep(done, fs, j);
      if rec.None? {
        ConcatPrefix(done, FolderPairs(fs), j + 1);
        RecordsAbort(make, done + FolderPairs(fs), |visited| + 1);
        return None;
      }
      visited := visited + [(fs, obj)];
      acc := acc + [rec.value];
      j := j + 1;
    }
    assert FolderPairs(fs)[..j] == FolderPairs(fs);
    out := Some(acc);
  }

  /** The two nested loops of main over sample_data. */
  method ScanSamples(st: ScanSettings, env: S3Env, ghost make: RecordMaker, data: seq<FolderSample>)
    returns (out: Option<seq<Record>>)
    requires MakesRecords(make, st, env)
    ensures out == Records(make, Pairs(data))
  {
    var results: seq<Record> := [];
    var i := 0;
    while i < |data|
      invariant 0 <= i <= |data|
      invariant Records(make, Pairs(data[..i])) == Some(results)
    {
      assert data[..i + 1][..i] == data[..i];
      assert Pairs(data[..i + 1]) == Pairs(data[..i]) + FolderPairs(data[i]);
      var next := ScanFolder(st, env, data[i], make, Pairs(data[..i]), results);
      if next.None? {
        PairsPrefix(data, i + 1);
        assert Pairs(data)[..|Pairs(data[..i + 1])|] == Pairs(data[..i + 1]);
        RecordsAbort(make, Pairs(data), |Pairs(data[..i + 1])|);
        return None;
      }
      results := next.value;
      i := i + 1;
    }
    assert data[..i] == data;
    out := Some(results);
  }

  // ----- The run -----

  /** How main ends: an exception, the prompt declined, or the results file
      written with these records. */
  datatype RunOutcome = Crashed | Cancelled | Saved(records: seq<Record>)

  /** main: sample the listing, ask for confirmation unless -y was given,
      then build every record. */
  ghost function S3Run(st: ScanSettings, env: S3Env, listing: seq<S3Object>, answer: string): RunOutcome
    requires ValidPicker(env.pickObjects)
  {
    match SampleData(listing, st.rate, st.limit, env.pickObjects)
    case None => Crashed
    case Some(data) =>
      if !st.bypass && !Cli.Confirmed(answer) then Cancelled
      else
        match Records(MakerOf(st, env), Pairs(data))
        case None => Crashed
        case Some(rs) => Saved(rs)
  }

  method RunS3Scan(st: ScanSettings, env: S3Env, listing: seq<S3Object>, answer: string)
    returns (outcome: RunOutcome)
    requires ValidPicker(env.pickObjects)
    ensures outcome == S3Run(st, env, listing, answer)
  {
    var data := SampleByFolder(listing, st.rate, st.limit, env.pickObjects);
    if data.None? {
      return Crashed;
    }
    if !st.bypass {
      if !Cli.Confirmed(answer) {
        return Cancelled;
      }
    }
    MakerOfMakesRecords(st, env);
    var records := ScanSamples(st, env, MakerOf(st, env), data.value);
    if records.None? {
      return Crashed;
    }
    outcome := Saved(records.value);
  }

  /** A written results file holds, only after confirmation (or -y), one
      record per sampled object — as many as the summary announced — in
      folder-then-sample order, the k-th being the k-th object's record. */
  lemma SavedRun(st: ScanSettings, env: S3Env, listing: seq<S3Object>, answer: string)
    requires ValidPicker(env.pickObjects)
    requires S3Run(st, env, listing, answer).Saved?
    ensures st.bypass || Cli.Confirmed(answer)
    ensures SampleData(listing, st.rate, st.limit, env.pickObjects).Some?
    ensures var data := SampleData(listing, st.rate, st.limit, env.pickObjects).value;
      var rs := S3Run(st, env, listing, answer).records;
      var pairs := Pairs(data);
      && |rs| == |pairs| == TotalSamples(data)
      && forall k :: 0 <= k < |pairs| ==> Some(rs[k]) == ObjectRecord(st, env, pairs[k].0, pairs[k].1, k)
  {
    var data := SampleData(listing, st.rate, st.limit, env.pickObjects).value;
    SampleDataShape(listing, st.rate, st.limit, env.pickObjects);
    PairsCount(data);
    var make := MakerOf(st, env);
    var pairs := Pairs(data);
    RecordsShape(make, pairs);
    forall k | 0 <= k < |pairs|
      ensures make(pairs[k].0, pairs[k].1, k) == ObjectRecord(st, env, pairs[k].0, pairs[k].1, k)
    {
    }
  }

  /** A negative limit makes random.sample raise in the first folder, so a
      listing with any scannable object crashes before the prompt. */
  lemma NegativeLimitCrashes(st: ScanSettings, env: S3Env, listing: seq<S3Object>, answer: string)
    requires ValidPicker(env.pickObjects)
    requires st.limit < 0 && FolderGroups(listing).order != []
    ensures S3Run(st, env, listing, answer) == Crashed
  {
    SampleDataShape(listing, st.rate, st.limit, env.pickObjects);
  }
}
