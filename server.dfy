/** The server's exposure endpoint: the reply it builds from the status the
    client computed, whether an API key is configured and how the call to the
    language model went, and the pieces of the model prompt that depend on
    the request (severity, issue and the lines of selectable options). */
module Server {
  import opened Text
  import opened Optional

  /** A JSON member that may be missing, `null`, or a string. */
  datatype Field = Absent | Null | Str(text: string)

  /** A JSON reply: HTTP status code, `status`, `message` and `suggestion`. */
  datatype Reply = Reply(httpStatus: nat, status: string, message: string, suggestion: Field)

  /** The outcome of `get_ai_suggestion`: the stripped answer text, or the
      text of the exception it raised. */
  datatype AiOutcome = AiSuccess(text: string) | AiFailure(error: string)

  /** The over group of `check_exposure`. */
  predicate IsOverexposed(status: string)
  {
    status == "overexposed" || status == "slightly_overexposed"
  }

  /** The under group of `check_exposure`; no status is in both groups. */
  predicate IsUnderexposed(status: string)
    ensures IsUnderexposed(status) ==> !IsOverexposed(status)
  {
    status == "underexposed" || status == "slightly_underexposed"
  }

  /** `/api/config`: whether a key is configured (`bool` of a string). */
  function HasKey(apiKey: string): (has: bool)
    ensures has <==> |apiKey| > 0
  {
    apiKey != []
  }

  /** `check_exposure`: a normal status is answered at once; an abnormal one
      without a key is answered without a suggestion; otherwise the model's
      answer becomes the suggestion, or its failure an error reply. The
      outcome `ai` is only looked at on the last path. */
  function CheckExposure(status: string, apiKey: string, ai: AiOutcome): (r: Reply)
    ensures r.httpStatus == 200
    ensures r.status == "ok" <==> (!IsOverexposed(status) && !IsUnderexposed(status)) || apiKey == []
    ensures !IsOverexposed(status) && !IsUnderexposed(status) ==> r == Reply(200, "ok", "曝光正常", Absent)
  {
    var over := IsOverexposed(status);
    var under := IsUnderexposed(status);
    if !over && !under then
      Reply(200, "ok", "曝光正常", Absent)
    else if apiKey == [] then
      Reply(200, "ok", "曝光异常，AI服务未配置", Null)
    else
      match ai
      case AiSuccess(text) => Reply(200, "warning", "曝光" + (if over then "过曝" else "欠曝"), Str(text))
      case AiFailure(error) => Reply(200, "error", "AI服务异常: " + error, Str("请稍后重试"))
  }

  /** For a normal status, or without a key, the model's outcome makes no
      difference to the reply: the model is not consulted. */
  lemma ModelNotConsulted(status: string, apiKey: string, ai1: AiOutcome, ai2: AiOutcome)
    requires (!IsOverexposed(status) && !IsUnderexposed(status)) || apiKey == []
    ensures CheckExposure(status, apiKey, ai1) == CheckExposure(status, apiKey, ai2)
  {
  }

  /** An abnormal status without a key: `ok`, with a `null` suggestion. */
  lemma NoKeyReply(status: string, ai: AiOutcome)
    requires IsOverexposed(status) || IsUnderexposed(status)
    ensures CheckExposure(status, "", ai).status == "ok"
    ensures CheckExposure(status, "", ai).suggestion == Null
  {
  }

  /** With a key, a successful answer gives a warning whose suggestion is the
      answer and whose message names the issue the prompt named. */
  lemma AnswerReply(status: string, apiKey: string, text: string)
    requires IsOverexposed(status) || IsUnderexposed(status)
    requires apiKey != []
    ensures CheckExposure(status, apiKey, AiSuccess(text)) ==
      Reply(200, "warning", "曝光" + ExposureIssue(status), Str(text))
  {
  }

  /** With a key, a failed call gives an error reply asking to retry later. */
  lemma FailureReply(status: string, apiKey: string, error: string)
    requires IsOverexposed(status) || IsUnderexposed(status)
    requires apiKey != []
    ensures CheckExposure(status, apiKey, AiFailure(error)).status == "error"
    ensures CheckExposure(status, apiKey, AiFailure(error)).suggestion == Str("请稍后重试")
  {
  }

  /** The issue named in the prompt: `过曝` for the over group, `欠曝` otherwise. */
  function ExposureIssue(status: string): (issue: string)
    ensures issue == "过曝" <==> IsOverexposed(status)
    ensures issue == "欠曝" <==> !IsOverexposed(status)
  {
    if IsOverexposed(status) then "过曝" else "欠曝"
  }

  /** The severity named in the prompt: `严重` for the two outright statuses,
      `轻微` otherwise. */
  function Severity(status: string): (severity: string)
    ensures severity == "严重" <==> status == "overexposed" || status == "underexposed"
    ensures severity == "轻微" <==> status != "overexposed" && status != "underexposed"
  {
    if status == "overexposed" || status == "underexposed" then "严重" else "轻微"
  }

  /** The values of a list, each written after `prefix`. */
  function Prefixed(values: seq<string>, prefix: string): (r: seq<string>)
    ensures |r| == |values|
    ensures forall i :: 0 <= i < |r| ==> r[i] == prefix + values[i]
  {
    if values == [] then [] else [prefix + values[0]] + Prefixed(values[1..], prefix)
  }

  /** A list that is present and not empty (Python's truth of a list). */
  predicate Given(values: Option<seq<string>>)
  {
    values.Some? && values.value != []
  }

  /** The line of one option list, without its line break. */
  function OptionLine(caption: string, values: seq<string>, prefix: string): (line: string)
    ensures |values| == 1 ==> line == caption + prefix + values[0]
    ensures forall c :: c !in caption && c !in prefix && c !in ", " && (forall i :: 0 <= i < |values| ==> c !in values[i]) ==> c !in line
  {
    caption + JoinWith(Prefixed(values, prefix), ", ")
  }

  /** One `if` of `options_hint`: the list's line and a line break when the
      list is given, nothing otherwise. */
  function HintPiece(caption: string, values: Option<seq<string>>, prefix: string): (piece: string)
    ensures piece == [] <==> !Given(values)
  {
    if Given(values) then OptionLine(caption, values.value, prefix) + "\n" else ""
  }

  /** `options_hint`, the list values already written as text (`str(v)`). */
  function OptionsHint(apertures: Option<seq<string>>, shutters: Option<seq<string>>, isos: Option<seq<string>>): (hint: string)
    ensures hint == [] <==> !Given(apertures) && !Given(shutters) && !Given(isos)
  {
    HintPiece("可选光圈值: ", apertures, "f/") + HintPiece("可选快门值: ", shutters, "") + HintPiece("可选ISO值: ", isos, "")
  }

  /** The line a list should contribute: one when it is given, none otherwise. */
  function LineOf(caption: string, values: Option<seq<string>>, prefix: string): (lines: seq<string>)
    ensures |lines| == if Given(values) then 1 else 0
  {
    if Given(values) then [OptionLine(caption, values.value, prefix)] else []
  }

  /** The lines `options_hint` should hold: one per given list, in the order
      aperture, shutter, ISO. */
  function HintLines(apertures: Option<seq<string>>, shutters: Option<seq<string>>, isos: Option<seq<string>>): (lines: seq<string>)
    ensures |lines| == (if Given(apertures) then 1 else 0) + (if Given(shutters) then 1 else 0) + (if Given(isos) then 1 else 0)
  {
    LineOf("可选光圈值: ", apertures, "f/") + LineOf("可选快门值: ", shutters, "") + LineOf("可选ISO值: ", isos, "")
  }

  /** No value of a list holds a line break. */
  predicate SingleLine(values: Option<seq<string>>)
  {
    values.Some? ==> forall i :: 0 <= i < |values.value| ==> '\n' !in values.value[i]
  }

  /** `options_hint` splits at its line breaks into exactly the expected
      lines, one per given list in order, and a final empty text; absent and
      empty lists contribute no line. */
  lemma OptionsHintLines(apertures: Option<seq<string>>, shutters: Option<seq<string>>, isos: Option<seq<string>>)
    requires SingleLine(apertures) && SingleLine(shutters) && SingleLine(isos)
    ensures Split(OptionsHint(apertures, shutters, isos), '\n') == HintLines(apertures, shutters, isos) + [[]]
  {
    var lines := HintLines(apertures, shutters, isos);
    var a, s, i := LineOf("可选光圈值: ", apertures, "f/"), LineOf("可选快门值: ", shutters, ""), LineOf("可选ISO值: ", isos, "");
    LineOfSingle("可选光圈值: ", apertures, "f/");
    LineOfSingle("可选快门值: ", shutters, "");
    LineOfSingle("可选ISO值: ", isos, "");
    forall k | 0 <= k < |lines|
      ensures '\n' !in lines[k]
    {
      assert lines == a + s + i;
    }
    HintAsLines(apertures, shutters, isos);
    SplitLines(lines);
  }

  /** The line a list contributes holds no line break. */
  lemma LineOfSingle(caption: string, values: Option<seq<string>>, prefix: string)
    requires '\n' !in caption && '\n' !in prefix && SingleLine(values)
    ensures forall k :: 0 <= k < |LineOf(caption, values, prefix)| ==> '\n' !in LineOf(caption, values, prefix)[k]
  {
    if Given(values) {
      var parts := Prefixed(values.value, prefix);
      forall k | 0 <= k < |parts|
        ensures '\n' !in parts[k]
      {
        assert parts[k] == prefix + values.value[k];
      }
      assert '\n' !in ", ";
    }
  }

  /** Each `if` of `options_hint` writes the line its list contributes, with its break. */
  lemma PieceAsLines(caption: string, values: Option<seq<string>>, prefix: string)
    ensures HintPiece(caption, values, prefix) == Lines(LineOf(caption, values, prefix))
  {
    if Given(values) {
      assert LineOf(caption, values, prefix)[1..] == [];
    }
  }

  /** The three pieces of `options_hint` are the expected lines, each with its break. */
  lemma HintAsLines(apertures: Option<seq<string>>, shutters: Option<seq<string>>, isos: Option<seq<string>>)
    ensures OptionsHint(apertures, shutters, isos) == Lines(HintLines(apertures, shutters, isos))
  {
    var a, s, i := LineOf("可选光圈值: ", apertures, "f/"), LineOf("可选快门值: ", shutters, ""), LineOf("可选ISO值: ", isos, "");
    PieceAsLines("可选光圈值: ", apertures, "f/");
    PieceAsLines("可选快门值: ", shutters, "");
    PieceAsLines("可选ISO值: ", isos, "");
    LinesAppend(a, s);
    LinesAppend(a + s, i);
  }

  lemma {:induction false} LinesAppend(xs: seq<string>, ys: seq<string>)
    ensures Lines(xs + ys) == Lines(xs) + Lines(ys)
  {
    if xs == [] {
      assert xs + ys == ys;
    } else {
      var zs := xs + ys;
      assert zs[0] == xs[0] && zs[1..] == xs[1..] + ys;
      LinesAppend(xs[1..], ys);
      assert Lines(zs) == xs[0] + "\n" + (Lines(xs[1..]) + Lines(ys));
    }
  }

  /** The reply to a request over the rate limit (five per second per client). */
  function RateLimitReply(): (r: Reply)
    ensures r.httpStatus == 429 && r.status == "rate_limit"
  {
    Reply(429, "rate_limit", "请求频率过高", Absent)
  }
}
