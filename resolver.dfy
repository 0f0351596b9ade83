/**
  The report resolver of package common: a scan report is decoded strictly
  (unknown fields rejected) into the flat report shape; when that fails only
  because of an unknown field, the same file is decoded into the
  Kubernetes-aggregated shape, which is then flattened into a flat report.

  The JSON decoder itself and the two report schemas are not modelled: a
  decoder is a function from the file's bytes to either the decoded value or
  the decoder's error message, and a result entry is an opaque type `R`.
*/
module Resolver {
  import opened Wrappers

  newtype byte = x: int | 0 <= x < 256

  /** One sub-report of the aggregated shape; only its results are used. */
  datatype Resource<R> = Resource(results: seq<R>)

  /** The flat (canonical) report shape: an ordered list of results. */
  datatype FlatReport<R> = FlatReport(results: seq<R>)

  /** The Kubernetes-aggregated report shape: vulnerability groups and misconfiguration groups. */
  datatype K8sReport<R> = K8sReport(vulnerabilities: seq<Resource<R>>, misconfigurations: seq<Resource<R>>)

  /** A Go error value, as far as the resolver distinguishes them: the package's
      sentinel `ErrorJsonUnknownField`, or any other error with its message. */
  datatype Error = ErrorJsonUnknownField | Failure(message: string)

  /** The outcome of opening the report file: its contents, or the open error's message. */
  datatype OpenResult = Opened(contents: seq<byte>) | OpenFailed(message: string)

  /** A strict decoder for one target shape: the decoded value, or the decoder's error message. */
  type Decoder<T> = seq<byte> -> Result<T, string>

  /** The message of the sentinel, and the prefix that selects it. */
  const UnknownFieldPrefix: string := "json: unknown field"

  /** What ReadReport puts in front of the message of the error it reports. */
  const ReadReportPrefix: string := "failed to read report "

  /** The message of an error (Go's `err.Error()`). */
  function Message(e: Error): string
  {
    match e
    case ErrorJsonUnknownField => UnknownFieldPrefix
    case Failure(m) => m
  }

  /** Go's `strings.HasPrefix`. */
  function HasPrefix(s: string, prefix: string): (r: bool)
    ensures r <==> |prefix| <= |s| && s[..|prefix|] == prefix
  {
    prefix <= s
  }

  /** A raw decoder outcome that parseJsonStrict turns into the unknown-field sentinel. */
  predicate IsUnknownField<T>(decoded: Result<T, string>)
  {
    decoded.Err? && HasPrefix(decoded.error, UnknownFieldPrefix)
  }

  /** parseJsonStrict: runs the strict decoder and classifies its failure. */
  function ParseJsonStrict<T>(decode: Decoder<T>, contents: seq<byte>): (r: Result<T, Error>)
    ensures r.Ok? <==> decode(contents).Ok?
    ensures r.Ok? ==> r.value == decode(contents).value
    ensures r == Err(ErrorJsonUnknownField) <==> IsUnknownField(decode(contents))
    ensures r.Err? && r.error.Failure? ==> r.error.message == decode(contents).error
    ensures r.Err? ==> HasPrefix(decode(contents).error, Message(r.error))
  {
    match decode(contents)
    case Ok(v) => Ok(v)
    case Err(msg) =>
      if HasPrefix(msg, UnknownFieldPrefix) then Err(ErrorJsonUnknownField) else Err(Failure(msg))
  }

  /** readAndParseJson: opens the file and decodes it strictly. An error from
      opening is returned as it is and is never the unknown-field sentinel. */
  function ReadAndParseJson<T>(file: OpenResult, decode: Decoder<T>): (r: Result<T, Error>)
    ensures file.OpenFailed? ==> r.Err? && r.error != ErrorJsonUnknownField && Message(r.error) == file.message
    ensures file.Opened? ==> r == ParseJsonStrict(decode, file.contents)
  {
    match file
    case OpenFailed(msg) => Err(Failure(msg))
    case Opened(contents) => ParseJsonStrict(decode, contents)
  }

  /** The results of a list of sub-reports, concatenated in order. */
  function Concat<R>(groups: seq<Resource<R>>): seq<R>
  {
    if groups == [] then [] else Concat(groups[..|groups| - 1]) + groups[|groups| - 1].results
  }

  /** The total number of results held by a list of sub-reports. */
  function TotalLength<R>(groups: seq<Resource<R>>): nat
  {
    if groups == [] then 0 else |groups[0].results| + TotalLength(groups[1..])
  }

  /** The results of an aggregated report as convertK8sReportToReport gathers them:
      every vulnerability group's, then every misconfiguration group's. */
  function Flatten<R>(k8s: K8sReport<R>): seq<R>
  {
    Concat(k8s.vulnerabilities) + Concat(k8s.misconfigurations)
  }

  /** convertK8sReportToReport: two loops appending each group's results to an accumulator. */
  method ConvertK8sReportToReport<R>(k8s: K8sReport<R>) returns (report: FlatReport<R>)
    ensures report.results == Flatten(k8s)
    ensures |report.results| == TotalLength(k8s.vulnerabilities) + TotalLength(k8s.misconfigurations)
  {
    var results: seq<R> := [];
    for i := 0 to |k8s.vulnerabilities|
      invariant results == Concat(k8s.vulnerabilities[..i])
    {
      assert k8s.vulnerabilities[..i + 1][..i] == k8s.vulnerabilities[..i];
      results := results + k8s.vulnerabilities[i].results;
    }
    assert k8s.vulnerabilities[..|k8s.vulnerabilities|] == k8s.vulnerabilities;
    for j := 0 to |k8s.misconfigurations|
      invariant results == Concat(k8s.vulnerabilities) + Concat(k8s.misconfigurations[..j])
    {
      assert k8s.misconfigurations[..j + 1][..j] == k8s.misconfigurations[..j];
      results := results + k8s.misconfigurations[j].results;
    }
    assert k8s.misconfigurations[..|k8s.misconfigurations|] == k8s.misconfigurations;
    report := FlatReport(results);
    FlattenLength(k8s);
  }

  /** ReadReport: the primary strict decode; on the unknown-field sentinel only,
      the aggregated decode of the same file, flattened. Every error is reported
      as its message behind ReadReportPrefix. */
  function ReadReport<R>(file: OpenResult, decodeReport: Decoder<FlatReport<R>>, decodeK8s: Decoder<K8sReport<R>>)
    : (r: Result<FlatReport<R>, string>)
    // the file cannot be opened: that error, with no fallback
    ensures file.OpenFailed? ==> r == Err(ReadReportPrefix + file.message)
    ensures file.Opened? ==>
              var primary, secondary := decodeReport(file.contents), decodeK8s(file.contents);
              // the primary decode succeeds: its report, unchanged
              && (primary.Ok? ==> r == primary)
              // the primary decode fails for another reason: that error, with no fallback
              && (primary.Err? && !IsUnknownField(primary) ==> r == Err(ReadReportPrefix + primary.error))
              // an unknown field in the primary shape: the aggregated attempt decides, flattened on success
              && (IsUnknownField(primary) && secondary.Ok? ==> r == Ok(FlatReport(Flatten(secondary.value))))
              // ... and reported with its own message (not the primary one's) on failure; an unknown
              // field there is reported by the sentinel's message, which drops the field's name
              && (IsUnknownField(primary) && secondary.Err? ==>
                    r == Err(ReadReportPrefix + if IsUnknownField(secondary) then UnknownFieldPrefix else secondary.error))
  {
    match ReadAndParseJson(file, decodeReport)
    case Ok(report) => Ok(report)
    case Err(err) =>
      if err != ErrorJsonUnknownField then
        Err(ReadReportPrefix + Message(err))
      else
        match ReadAndParseJson(file, decodeK8s)
        case Ok(k8s) => Ok(FlatReport(Flatten(k8s)))
        case Err(err2) => Err(ReadReportPrefix + Message(err2))
  }

  /** When the primary decode decides the outcome (success, or an error other than
      the sentinel), the aggregated decoder is never consulted: any other
      aggregated decoder gives the same result. */
  lemma PrimaryDecidesAlone<R>(file: OpenResult, decodeReport: Decoder<FlatReport<R>>,
                               decodeK8s: Decoder<K8sReport<R>>, otherK8s: Decoder<K8sReport<R>>)
    requires ReadAndParseJson(file, decodeReport) != Err(ErrorJsonUnknownField)
    ensures ReadReport(file, decodeReport, decodeK8s) == ReadReport(file, decodeReport, otherK8s)
  {
  }

  /** After an unknown-field failure, the primary attempt's error does not reach
      the result: two primary decoders that both hit an unknown field (with
      whatever messages) give the same result. */
  lemma FallbackIgnoresPrimaryError<R>(file: OpenResult, decodeReport: Decoder<FlatReport<R>>,
                                       otherReport: Decoder<FlatReport<R>>, decodeK8s: Decoder<K8sReport<R>>)
    requires ReadAndParseJson(file, decodeReport) == Err(ErrorJsonUnknownField)
    requires ReadAndParseJson(file, otherReport) == Err(ErrorJsonUnknownField)
    ensures ReadReport(file, decodeReport, decodeK8s) == ReadReport(file, otherReport, decodeK8s)
  {
  }

  /** Concatenation distributes over joining two lists of sub-reports. */
  lemma {:induction false} ConcatAppend<R>(a: seq<Resource<R>>, b: seq<Resource<R>>)
    ensures Concat(a + b) == Concat(a) + Concat(b)
    decreases |b|
  {
    if b == [] {
      assert a + b == a;
    } else {
      var init := b[..|b| - 1];
      assert (a + b)[..|a + b| - 1] == a + init;
      ConcatAppend(a, init);
    }
  }

  /** The concatenation of one sub-report is its results. */
  lemma ConcatSingle<R>(g: Resource<R>)
    ensures Concat([g]) == g.results
  {
    assert [g][..0] == [];
  }

  /** Nothing is dropped or added: the concatenation holds exactly as many
      results as the sub-reports together. */
  lemma {:induction false} ConcatLength<R>(groups: seq<Resource<R>>)
    ensures |Concat(groups)| == TotalLength(groups)
  {
    if groups != [] {
      assert groups == [groups[0]] + groups[1..];
      ConcatAppend([groups[0]], groups[1..]);
      ConcatSingle(groups[0]);
      ConcatLength(groups[1..]);
    }
  }

  /** Nothing is reordered: the j-th result of the i-th sub-report sits in the
      concatenation right after the results of the sub-reports before it. */
  lemma ConcatAt<R>(groups: seq<Resource<R>>, i: nat, j: nat)
    requires i < |groups| && j < |groups[i].results|
    ensures |Concat(groups[..i])| + j < |Concat(groups)|
    ensures Concat(groups)[|Concat(groups[..i])| + j] == groups[i].results[j]
  {
    assert groups == groups[..i] + ([groups[i]] + groups[i + 1..]);
    ConcatAppend(groups[..i], [groups[i]] + groups[i + 1..]);
    ConcatAppend([groups[i]], groups[i + 1..]);
    ConcatSingle(groups[i]);
  }

  /** A result is in the concatenation exactly when some sub-report holds it. */
  lemma {:induction false} ConcatMembership<R>(groups: seq<Resource<R>>, x: R)
    ensures x in Concat(groups) <==> exists i :: 0 <= i < |groups| && x in groups[i].results
  {
    if groups != [] {
      var init := groups[..|groups| - 1];
      ConcatMembership(init, x);
      assert forall i :: 0 <= i < |init| ==> init[i] == groups[i];
    }
  }

  /** The flattened report holds as many results as all groups together. */
  lemma FlattenLength<R>(k8s: K8sReport<R>)
    ensures |Flatten(k8s)| == TotalLength(k8s.vulnerabilities) + TotalLength(k8s.misconfigurations)
  {
    ConcatLength(k8s.vulnerabilities);
    ConcatLength(k8s.misconfigurations);
  }

  /** Nothing is reordered: the j-th result of the i-th vulnerability group sits
      right after the results of the groups before it. */
  lemma FlattenVulnerabilityAt<R>(k8s: K8sReport<R>, i: nat, j: nat)
    requires i < |k8s.vulnerabilities| && j < |k8s.vulnerabilities[i].results|
    ensures |Concat(k8s.vulnerabilities[..i])| + j < |Flatten(k8s)|
    ensures Flatten(k8s)[|Concat(k8s.vulnerabilities[..i])| + j] == k8s.vulnerabilities[i].results[j]
  {
    ConcatAt(k8s.vulnerabilities, i, j);
  }

  /** Every misconfiguration result comes after all vulnerability results, the
      j-th result of the i-th misconfiguration group right after the results of
      the misconfiguration groups before it. */
  lemma FlattenMisconfigurationAt<R>(k8s: K8sReport<R>, i: nat, j: nat)
    requires i < |k8s.misconfigurations| && j < |k8s.misconfigurations[i].results|
    ensures |Concat(k8s.vulnerabilities)| + |Concat(k8s.misconfigurations[..i])| + j < |Flatten(k8s)|
    ensures Flatten(k8s)[|Concat(k8s.vulnerabilities)| + |Concat(k8s.misconfigurations[..i])| + j]
            == k8s.misconfigurations[i].results[j]
  {
    ConcatAt(k8s.misconfigurations, i, j);
  }

  /** A result is in the flattened report exactly when some group holds it. */
  lemma FlattenMembership<R>(k8s: K8sReport<R>, x: R)
    ensures x in Flatten(k8s) <==>
              (exists i :: 0 <= i < |k8s.vulnerabilities| && x in k8s.vulnerabilities[i].results) ||
              (exists i :: 0 <= i < |k8s.misconfigurations| && x in k8s.misconfigurations[i].results)
  {
    ConcatMembership(k8s.vulnerabilities, x);
    ConcatMembership(k8s.misconfigurations, x);
  }

  /** Vulnerability groups [V1{r1, r2}, V2{r3}] and misconfiguration groups [M1{r4}]
      flatten to [r1, r2, r3, r4]. */
  lemma FlattenExample<R>(r1: R, r2: R, r3: R, r4: R)
    ensures Flatten(K8sReport([Resource([r1, r2]), Resource([r3])], [Resource([r4])])) == [r1, r2, r3, r4]
  {
    assert [Resource([r1, r2]), Resource([r3])] == [Resource([r1, r2])] + [Resource([r3])];
    ConcatAppend([Resource([r1, r2])], [Resource([r3])]);
    ConcatSingle(Resource([r1, r2]));
    ConcatSingle(Resource([r3]));
    ConcatSingle(Resource([r4]));
  }
}
