/** Normalisation of an upstream reply's text into a JSON body (`fetchJson`).
    The parser is an oracle: `JSON.parse` either yields a value or throws an
    error whose `String(e)` is the message kept in the degraded body. */
module Body {
  import opened Wrappers
  import opened Js

  datatype ParseOutcome = Parsed(value: Json) | SyntaxError(message: string)

  type Parser = string -> ParseOutcome

  /** How many characters of unparseable text are kept in `raw`. */
  const RawLimit: nat := 2000

  function Min(a: nat, b: nat): nat {
    if a <= b then a else b
  }

  /** `text.slice(0, 2000)`: the longest prefix of `text` of at most RawLimit characters. */
  function Truncate(text: string): (raw: string)
    ensures |raw| == Min(|text|, RawLimit)
    ensures raw <= text
  {
    if |text| <= RawLimit then text else text[..RawLimit]
  }

  /** The degraded body `{parseError, raw}` built when parsing throws. */
  function ParseErrorBody(message: string, text: string): (body: Json)
    ensures Get(body, "parseError") == Some(JStr(message))
    ensures Get(body, "raw") == Some(JStr(Truncate(text)))
    ensures OnlyKeys(body, "parseError", "raw")
  {
    Pair("parseError", JStr(message), "raw", JStr(Truncate(text)))
  }

  /** `v` is the string `raw` of a degraded body for `text`: the prefix of
      `text` of length min(|text|, RawLimit). */
  predicate IsRawOf(v: Option<Json>, text: string) {
    && v.Some? && v.value.JStr?
    && v.value.s <= text && |v.value.s| == Min(|text|, RawLimit)
  }

  /** The body `fetchJson` returns for reply text `text`: `{}` for empty text,
      the parsed value when parsing succeeds, the degraded body otherwise. */
  function Normalise(text: string, parse: Parser): (body: Json)
    ensures text == "" ==> body == JObj([])
    ensures text != "" && parse(text).Parsed? ==> body == parse(text).value
    ensures text != "" && parse(text).SyntaxError? ==>
              && Get(body, "parseError") == Some(JStr(parse(text).message))
              && IsRawOf(Get(body, "raw"), text)
              && OnlyKeys(body, "parseError", "raw")
  {
    if text == "" then JObj([])
    else match parse(text)
      case Parsed(v) => v
      case SyntaxError(m) => ParseErrorBody(m, text)
  }

  /** Empty reply text never reaches the parser: any two parsers give the same body. */
  lemma EmptyTextSkipsParser(p1: Parser, p2: Parser)
    ensures Normalise("", p1) == Normalise("", p2) == JObj([])
  {
  }

  /** The `|| ""` fallback on `raw` never fires: the parser only runs on
      non-empty text, so the kept prefix is non-empty. */
  lemma RawNeverEmpty(text: string, parse: Parser)
    requires text != "" && parse(text).SyntaxError?
    ensures Get(Normalise(text, parse), "raw").Some?
    ensures Get(Normalise(text, parse), "raw").value.JStr?
    ensures Get(Normalise(text, parse), "raw").value.s != ""
  {
  }

  /** The degraded body has no `code`, nor any property other than its two. */
  lemma DegradedBodyHasOnlyTwoKeys(text: string, parse: Parser, k: string)
    requires text != "" && parse(text).SyntaxError?
    requires k != "parseError" && k != "raw"
    ensures Get(Normalise(text, parse), k).None?
  {
    OnlyKeysOthersAbsent(Normalise(text, parse), "parseError", "raw", k);
  }

  /** Text no longer than the limit is kept whole in `raw`. */
  lemma ShortTextKeptWhole(text: string, parse: Parser)
    requires text != "" && parse(text).SyntaxError? && |text| <= RawLimit
    ensures Get(Normalise(text, parse), "raw") == Some(JStr(text))
  {
  }
}
