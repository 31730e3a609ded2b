/** File-type handling of the S3 scanner: the extension taken from an object
    key, the allow-lists that choose how the object is sent to the model
    (an image block, a document block, or a block of sampled table rows), and
    the detection call of s3_detect_pii with its two error messages. The
    pandas reader, DataFrame.sample and the model service are inputs. */
module S3Detect {
  import opened Common
  import Paths
  import ModelIds

  // ----- The extension of an object key -----

  /** name.split('.')[-1]: the text after the last '.', or the whole name. */
  function AfterLastDot(name: string): (ext: string)
    ensures '.' !in ext
    ensures EndsWith(name, ext)
    ensures |ext| < |name| ==> name[|name| - |ext| - 1] == '.'
    ensures '.' !in name ==> ext == name
  {
    var i := LastIndexOf(name, '.') + 1;
    assert forall k :: 0 <= k < |name| - i ==> name[i..][k] == name[i + k];
    name[i..]
  }

  /** The extension the main loop derives from a file name: a hidden file
      has one only when it holds a second '.', a name without '.' has none,
      and otherwise it is the text after the last '.'. */
  function ExtensionOfName(name: string): Option<string>
  {
    if StartsWith(name, ".") then
      if Count(name, '.') > 1 then Some(AfterLastDot(name)) else None
    else if '.' !in name then None
    else Some(AfterLastDot(name))
  }

  /** The extension of an object, taken from the last '/'-separated segment of its key. */
  function ExtensionOf(key: string): Option<string>
  {
    ExtensionOfName(Paths.Basename(key))
  }

  /** A name has an extension exactly when a '.' follows its first
      character; the extension is then the text after the last '.', which is
      empty when the name ends in '.'. */
  lemma ExtensionOfNameCharacterised(name: string)
    ensures ExtensionOfName(name).Some? <==> |name| > 0 && '.' in name[1..]
    ensures ExtensionOfName(name).Some? ==>
      var ext := ExtensionOfName(name).value;
      '.' !in ext && EndsWith(name, "." + ext) && |ext| < |name| - 1
  {
    if |name| > 0 {
      assert name == [name[0]] + name[1..];
      if name[0] == '.' {
        assert Count(name, '.') == 1 + Count(name[1..], '.');
      } else {
        assert '.' in name <==> '.' in name[1..];
      }
    }
    if ExtensionOfName(name).Some? {
      var ext := ExtensionOfName(name).value;
      var i := |name| - |ext| - 1;
      assert name[i] == '.';
      assert name[i + 1..] == ext;
      assert name[i..] == "." + ext;
    }
  }

  /** A hidden file without a second '.' has no extension. */
  lemma HiddenFileExample()
    ensures ExtensionOfName(".env") == None
  {
    assert StartsWith(".env", ".");
    assert ".env"[1..] == "env";
    assert Count(".env", '.') == 1 + Count("env", '.');
  }

  /** A hidden file with a second '.' has the text after it. */
  lemma HiddenFileWithExtensionExample()
    ensures ExtensionOfName(".a.md") == Some("md")
  {
    assert StartsWith(".a.md", ".");
    assert ".a.md"[1..] == "a.md";
    assert Count(".a.md", '.') == 1 + Count("a.md", '.');
    assert LastIndexOf(".a.md", '.') == 2;
  }

  /** A name ending in '.' has the empty extension. */
  lemma TrailingDotExample()
    ensures ExtensionOfName("a.") == Some("")
  {
    assert LastIndexOf("a.", '.') == 1;
  }

  // ----- The allow-lists -----

  const IMAGE_FORMATS: seq<string> := ["png", "jpeg", "gif", "webp"]
  const DOCUMENT_FORMATS: seq<string> := ["pdf", "doc", "docx", "xls", "xlsx", "html", "txt", "md"]
  const TABULAR_FORMATS: seq<string> := ["json", "jsonl", "csv", "tsv"]

  /** The name under which every document is sent. */
  const DOCUMENT_NAME: string := "sample_doc"

  /** The text block that closes every request. */
  const INSTRUCTION: string :=
    "Detect PII categories in the provided data, and follow the instruction to return the result in JSON format."

  /** How an extension is sent to the model. */
  datatype Modality = Image | Document | Tabular | Unsupported

  /** The one alias the scanner rewrites: "jpg" is sent as "jpeg". */
  function NormaliseExt(ext: Option<string>): (e: Option<string>)
    ensures e != Some("jpg")
    ensures e.None? <==> ext.None?
    ensures ext == Some("jpg") ==> e == Some("jpeg")
    ensures ext != Some("jpg") ==> e == ext
  {
    if ext == Some("jpg") then Some("jpeg") else ext
  }

  /** The modality of each (normalised) extension, extension by extension. */
  function ModalityOf(ext: Option<string>): Modality
  {
    match ext
    case None => Unsupported
    case Some(e) =>
      match e
      case "png" => Image
      case "jpeg" => Image
      case "gif" => Image
      case "webp" => Image
      case "pdf" => Document
      case "doc" => Document
      case "docx" => Document
      case "xls" => Document
      case "xlsx" => Document
      case "html" => Document
      case "txt" => Document
      case "md" => Document
      case "json" => Tabular
      case "jsonl" => Tabular
      case "csv" => Tabular
      case "tsv" => Tabular
      case _ => Unsupported
  }

  /** The per-extension table agrees with the three allow-lists, which are
      pairwise disjoint. */
  lemma ModalityOfLists(ext: Option<string>)
    ensures ModalityOf(ext) == Image <==> ext.Some? && ext.value in IMAGE_FORMATS
    ensures ModalityOf(ext) == Document <==> ext.Some? && ext.value in DOCUMENT_FORMATS
    ensures ModalityOf(ext) == Tabular <==> ext.Some? && ext.value in TABULAR_FORMATS
  {
  }

  /** The pandas reader each tabular extension uses. */
  datatype TableReader = JsonRecords | JsonLines | Csv | Tsv

  function ReaderFor(ext: string): TableReader
  {
    match ext
    case "json" => JsonRecords
    case "jsonl" => JsonLines
    case "csv" => Csv
    case _ => Tsv
  }

  // ----- The request -----

  /** A table as pandas reads it: column names and rows. */
  datatype Frame = Frame(columns: seq<string>, rows: seq<seq<Json>>)

  /** One content block of the request. Table rows and schema are kept as
      data; the prompt text around them is not modelled. */
  datatype Block =
    | ImageBlock(format: string, uri: string)
    | DocumentBlock(format: string, name: string, uri: string)
    | SampleBlock(rows: seq<seq<Json>>, schema: seq<string>)
    | TextBlock(text: string)

  /** The services s3_detect_pii calls: the pandas reader (None when the
      read raises), DataFrame.sample(n) and the model's converse call. */
  datatype DetectServices = DetectServices(
    readTable: (string, TableReader) -> Option<Frame>,
    pickRows: (seq<seq<Json>>, nat) -> seq<seq<Json>>,
    converse: (string, seq<Block>) -> CallOutcome)

  /** DataFrame.sample(n) for 0 <= n <= len: n rows from distinct positions. */
  ghost predicate ValidRowPicker(pick: (seq<seq<Json>>, nat) -> seq<seq<Json>>)
  {
    forall rows, n: nat :: n <= |rows| ==>
      |pick(rows, n)| == n && multiset(pick(rows, n)) <= multiset(rows)
  }

  function S3Uri(bucket: string, key: string): string
  {
    "s3://" + bucket + "/" + key
  }

  /** min(max(1, round(len(frame) * sample_rate)), limit). */
  function TabularSampleSize(n: nat, rate: real, limit: int): (k: int)
    ensures k <= limit
    ensures limit >= 1 ==> k >= 1
  {
    Min(Max(1, RoundHalfEven(n as real * rate)), limit)
  }

  /** For a rate within [0, 1] and a positive limit the tabular sample size
      lies between 1 and the larger of 1 and the row count; so DataFrame.sample
      raises on an empty table and on no other. */
  lemma TabularSampleSizeBounds(n: nat, rate: real, limit: int)
    requires 0.0 <= rate <= 1.0 && limit >= 1
    ensures 1 <= TabularSampleSize(n, rate, limit) <= Max(1, n)
    ensures TabularSampleSize(n, rate, limit) > n <==> n == 0
  {
    ScaledAtMost(n, rate);
    RoundedSize(n as real * rate, n, limit);
  }

  /** min(max(1, round(x)), limit) for x within [0, n] and a positive limit. */
  lemma RoundedSize(x: real, n: nat, limit: int)
    requires 0.0 <= x <= n as real && limit >= 1
    ensures 1 <= Min(Max(1, RoundHalfEven(x)), limit) <= Max(1, n)
    ensures Min(Max(1, RoundHalfEven(x)), limit) > n <==> n == 0
  {
    var r := RoundHalfEven(x);
    assert r as real <= n as real + 0.5;
    assert r <= n;
  }

  /** What s3_detect_pii does before the call: the blocks to send, a refusal
      of an unsupported extension, or an exception from pandas (a failed read,
      or a sample size outside 0..len). */
  datatype Prepared = Send(content: seq<Block>) | Refuse | Raise

  function RequestContent(svc: DetectServices, uri: string, ext: Option<string>, rate: real, limit: int): Prepared
  {
    match ModalityOf(ext)
    case Image => Send([ImageBlock(ext.value, uri), TextBlock(INSTRUCTION)])
    case Document => Send([DocumentBlock(ext.value, DOCUMENT_NAME, uri), TextBlock(INSTRUCTION)])
    case Tabular =>
      (match svc.readTable(uri, ReaderFor(ext.value))
       case None => Raise
       case Some(frame) =>
         var n := TabularSampleSize(|frame.rows|, rate, limit);
         if n < 0 || n > |frame.rows| then Raise
         else Send([SampleBlock(svc.pickRows(frame.rows, n), frame.columns), TextBlock(INSTRUCTION)]))
    case Unsupported => Refuse
  }

  /** What s3_detect_pii returns: the service reply, an error message, or
      an exception that escapes it. */
  datatype Detection = Detected(reply: ModelReply) | DetectError(message: string) | DetectRaised


  /** How Python formats an optional extension inside an f-string. */
  function ExtText(ext: Option<string>): string
  {
    match ext
    case None => "None"
    case Some(e) => e
  }

  function UnsupportedReason(ext: Option<string>): string
  {
    "File type " + ExtText(ext) + " is not supported."
  }

  /** s3_detect_pii(bucket, key, ext, region, rate, limit). */
  function Detect(svc: DetectServices, bucket: string, key: string, ext: Option<string>,
                  region: string, rate: real, limit: int): Detection
  {
    var modelId := ModelIds.S3ModelId(region);
    var e := NormaliseExt(ext);
    match RequestContent(svc, S3Uri(bucket, key), e, rate, limit)
    case Send(content) =>
      (match svc.converse(modelId, content)
       case Replied(reply) => Detected(reply)
       case CallFailed(reason) => DetectError(ModelIds.CantInvoke(modelId, reason)))
    case Refuse => DetectError(ModelIds.CantInvoke(modelId, UnsupportedReason(e)))
    case Raise => DetectRaised
  }

  /** s3_detect_pii as the source writes it: three independent allow-list
      tests that each may append a block and mark the type supported, the
      instruction appended last, then the call or the refusal. */
  method DetectPii(svc: DetectServices, bucket: string, key: string, ext: Option<string>,
                   region: string, rate: real, limit: int) returns (d: Detection)
    ensures d == Detect(svc, bucket, key, ext, region, rate, limit)
  {
    var uri := S3Uri(bucket, key);
    var modelId := ModelIds.S3ModelId(region);
    var supported := false;
    var content: seq<Block> := [];
    var e := ext;
    if e == Some("jpg") {
      e := Some("jpeg");
    }
    ModalityOfLists(e);
    if e.Some? && e.value in IMAGE_FORMATS {
      supported := true;
      content := content + [ImageBlock(e.value, uri)];
    }
    if e.Some? && e.value in DOCUMENT_FORMATS {
      supported := true;
      content := content + [DocumentBlock(e.value, DOCUMENT_NAME, uri)];
    }
    if e.Some? && e.value in TABULAR_FORMATS {
      supported := true;
      var frame := svc.readTable(uri, ReaderFor(e.value));
      if frame.None? {
        return DetectRaised;
      }
      var n := TabularSampleSize(|frame.value.rows|, rate, limit);
      if n < 0 || n > |frame.value.rows| {
        return DetectRaised;
      }
      var rows := svc.pickRows(frame.value.rows, n);
      content := content + [SampleBlock(rows, frame.value.columns)];
    }
    content := content + [TextBlock(INSTRUCTION)];
    assert supported <==> ModalityOf(e) != Unsupported;
    assert supported ==> RequestContent(svc, uri, e, rate, limit) == Send(content);
    if supported {
      var outcome := svc.converse(modelId, content);
      match outcome
      case Replied(reply) =>
        d := Detected(reply);
      case CallFailed(reason) =>
        d := DetectError(ModelIds.CantInvoke(modelId, reason));
    } else {
      d := DetectError(ModelIds.CantInvoke(modelId, UnsupportedReason(e)));
    }
  }

  // ----- What the detection promises -----

  /** An unsupported extension, None included, is refused with the same
      message whatever the services would do: the model is never called. */
  lemma UnsupportedNeverCalls(svc: DetectServices, other: DetectServices, bucket: string, key: string,
                              ext: Option<string>, region: string, rate: real, limit: int)
    requires ModalityOf(NormaliseExt(ext)) == Unsupported
    ensures Detect(svc, bucket, key, ext, region, rate, limit) == Detect(other, bucket, key, ext, region, rate, limit)
    ensures Detect(svc, bucket, key, ext, region, rate, limit) ==
      DetectError("ERROR: Can't invoke '" + ModelIds.S3ModelId(region) + "'. Reason: File type "
                  + ExtText(ext) + " is not supported.")
  {
    assert ext != Some("jpg");
    assert ModelIds.CantInvoke(ModelIds.S3ModelId(region), UnsupportedReason(NormaliseExt(ext))) ==
      "ERROR: Can't invoke '" + ModelIds.S3ModelId(region) + "'. Reason: File type "
        + ExtText(ext) + " is not supported.";
  }

  /** A "jpg" object is handled exactly as a "jpeg" object. */
  lemma JpgIsJpeg(svc: DetectServices, bucket: string, key: string, region: string, rate: real, limit: int)
    ensures Detect(svc, bucket, key, Some("jpg"), region, rate, limit) ==
            Detect(svc, bucket, key, Some("jpeg"), region, rate, limit)
    ensures ModalityOf(NormaliseExt(Some("jpg"))) == Image
  {
  }

  /** Every request the model receives has two blocks: the one chosen by
      the modality, carrying the object's URI (or its sampled rows and
      columns), then the instruction. A table request carries exactly the
      computed number of rows, drawn from the table. */
  lemma RequestShape(svc: DetectServices, uri: string, ext: Option<string>, rate: real, limit: int)
    requires ValidRowPicker(svc.pickRows)
    ensures RequestContent(svc, uri, ext, rate, limit).Refuse? <==> ModalityOf(ext) == Unsupported
    ensures RequestContent(svc, uri, ext, rate, limit).Raise? ==> ModalityOf(ext) == Tabular
    ensures RequestContent(svc, uri, ext, rate, limit).Send? ==>
      var c := RequestContent(svc, uri, ext, rate, limit).content;
      && |c| == 2 && c[1] == TextBlock(INSTRUCTION)
      && (ModalityOf(ext) == Image ==> c[0] == ImageBlock(ext.value, uri) && ext.value in IMAGE_FORMATS)
      && (ModalityOf(ext) == Document ==> c[0] == DocumentBlock(ext.value, DOCUMENT_NAME, uri) && ext.value in DOCUMENT_FORMATS)
      && (ModalityOf(ext) == Tabular ==>
            var frame := svc.readTable(uri, ReaderFor(ext.value));
            && frame.Some?
            && c[0].SampleBlock?
            && c[0].schema == frame.value.columns
            && |c[0].rows| == TabularSampleSize(|frame.value.rows|, rate, limit) <= |frame.value.rows|
            && multiset(c[0].rows) <= multiset(frame.value.rows))
  {
    ModalityOfLists(ext);
  }

  /** With a rate in [0, 1] and a positive limit, a tabular read that
      succeeds raises exactly when the table is empty. */
  lemma TabularRaisesOnlyWhenEmpty(svc: DetectServices, uri: string, ext: Option<string>, rate: real, limit: int)
    requires ModalityOf(ext) == Tabular
    requires 0.0 <= rate <= 1.0 && limit >= 1
    requires svc.readTable(uri, ReaderFor(ext.value)).Some?
    ensures RequestContent(svc, uri, ext, rate, limit).Raise? <==>
      svc.readTable(uri, ReaderFor(ext.value)).value.rows == []
  {
    TabularSampleSizeBounds(|svc.readTable(uri, ReaderFor(ext.value)).value.rows|, rate, limit);
  }

  /** A supported object is sent, and its outcome is the service's: the
      reply, or the exception text inside the "Can't invoke" message. */
  lemma SupportedOutcome(svc: DetectServices, bucket: string, key: string, ext: Option<string>,
                         region: string, rate: real, limit: int)
    requires RequestContent(svc, S3Uri(bucket, key), NormaliseExt(ext), rate, limit).Send?
    ensures var c := RequestContent(svc, S3Uri(bucket, key), NormaliseExt(ext), rate, limit).content;
      var outcome := svc.converse(ModelIds.S3ModelId(region), c);
      && (outcome.Replied? ==> Detect(svc, bucket, key, ext, region, rate, limit) == Detected(outcome.reply))
      && (outcome.CallFailed? ==>
            (Detect(svc, bucket, key, ext, region, rate, limit) ==
             DetectError("ERROR: Can't invoke '" + ModelIds.S3ModelId(region) + "'. Reason: " + outcome.reason)))
  {
  }
}
