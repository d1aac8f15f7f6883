/** Parsing the model's text with one repair attempt: a strict parse, then
    a parse of the greedy match of `/\{[\s\S]*\}/`, the text from the first
    `{` to the last `}`. `JSON.parse` itself is a parameter (`parse`):
    `None` stands for a thrown `SyntaxError`. */
module JsonRepair {
  import opened Wrappers
  import opened ServiceErrors

  /** Index of the first `{`, or `|s|` when there is none. */
  function FirstOpen(s: string): (i: nat)
    ensures i <= |s|
    ensures i < |s| ==> s[i] == '{'
    ensures forall k :: 0 <= k < i ==> s[k] != '{'
  {
    if s == [] then 0
    else if s[0] == '{' then 0
    else 1 + FirstOpen(s[1..])
  }

  /** Index of the last `}`, or -1 when there is none. */
  function LastClose(s: string): (j: int)
    ensures -1 <= j < |s|
    ensures 0 <= j ==> s[j] == '}'
    ensures forall k :: j < k < |s| ==> s[k] != '}'
  {
    if s == [] then -1
    else if s[|s| - 1] == '}' then |s| - 1
    else LastClose(s[..|s| - 1])
  }

  /** Some `{` comes before some `}`: the regular expression can match. */
  predicate HasBracePair(s: string) {
    exists i, j :: 0 <= i < j < |s| && s[i] == '{' && s[j] == '}'
  }

  /** The leftmost, greedy match: from the first `{` through the last `}`.
      It exists exactly when a `{` precedes a `}`; it starts with `{`, ends
      with `}`, and covers every such pair in the text. */
  function ExtractBraces(s: string): (r: Option<string>)
    ensures r.Some? <==> HasBracePair(s)
    ensures r.Some? ==>
      var i, j := FirstOpen(s), LastClose(s);
      0 <= i < j < |s| && r.value == s[i..j + 1]
    ensures r.Some? ==> |r.value| >= 2 && r.value[0] == '{' && r.value[|r.value| - 1] == '}'
  {
    var i, j := FirstOpen(s), LastClose(s);
    if i < j then Some(s[i..j + 1]) else None
  }

  /** The match covers every `{`…`}` pair of the text: it is the longest
      candidate, as a greedy `[\s\S]*` makes it. */
  lemma ExtractBracesIsGreedy(s: string, p: int, q: int)
    requires 0 <= p < q < |s| && s[p] == '{' && s[q] == '}'
    ensures ExtractBraces(s).Some?
    ensures FirstOpen(s) <= p && q <= LastClose(s)
  {
  }

  /** Lines 218-235 of the service: strict parse, then one reparse of the
      extracted braces, else `JSON_PARSE_ERROR`. */
  function ParseWithRepair<V>(text: string, parse: string -> Option<V>): (r: Result<V, ErrorKind>)
    ensures parse(text).Some? ==> r == Ok(parse(text).value)
    ensures parse(text).None? && !HasBracePair(text) ==> r == Err(JsonParseError)
    ensures parse(text).None? && HasBracePair(text) ==>
      r == (match parse(ExtractBraces(text).value)
            case Some(v) => Ok(v)
            case None => Err(JsonParseError))
    ensures r.Err? ==> r.error == JsonParseError
  {
    match parse(text)
    case Some(v) => Ok(v)
    case None =>
      match ExtractBraces(text)
      case None => Err(JsonParseError)
      case Some(candidate) =>
        match parse(candidate)
        case Some(v) => Ok(v)
        case None => Err(JsonParseError)
  }

  /** Text wrapped around one object: when nothing before the object holds a
      `{` and nothing after it holds a `}`, the extraction is exactly the
      object. */
  lemma {:induction false} ExtractWrappedObject(prefix: string, obj: string, suffix: string)
    requires |obj| >= 2 && obj[0] == '{' && obj[|obj| - 1] == '}'
    requires forall k :: 0 <= k < |prefix| ==> prefix[k] != '{'
    requires forall k :: 0 <= k < |suffix| ==> suffix[k] != '}'
    ensures ExtractBraces(prefix + obj + suffix) == Some(obj)
  {
    var text := prefix + obj + suffix;
    var i, j := |prefix|, |prefix| + |obj| - 1;
    assert text[i] == '{' && text[j] == '}';
    assert forall k :: 0 <= k < i ==> text[k] == prefix[k];
    assert forall k :: j < k < |text| ==> text[k] == suffix[k - j - 1];
    assert text[i..j + 1] == obj;
  }

  /** The repair then parses exactly the embedded object. */
  lemma {:induction false} RepairRecoversEmbeddedObject<V>(
    prefix: string, obj: string, suffix: string, parse: string -> Option<V>)
    requires |obj| >= 2 && obj[0] == '{' && obj[|obj| - 1] == '}'
    requires forall k :: 0 <= k < |prefix| ==> prefix[k] != '{'
    requires forall k :: 0 <= k < |suffix| ==> suffix[k] != '}'
    requires parse(prefix + obj + suffix).None?
    requires parse(obj).Some?
    ensures ParseWithRepair(prefix + obj + suffix, parse) == Ok(parse(obj).value)
  {
    ExtractWrappedObject(prefix, obj, suffix);
  }
}
