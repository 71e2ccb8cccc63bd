/**
 * The output checks of the cheap-first-verify mode: the answer must not be
 * blank, must respect the word limit, must not hedge, and, when JSON is
 * asked for, must hold a JSON object carrying the required keys. The checks
 * run in that order and the first failure names the result.
 *
 * JSON parsing is a parameter (`loads`): `None` is a parse error, and only
 * the shape of the parsed value (an object and its key set, `null`, or any
 * other value) is modelled.
 */
module Validators {
  import opened Common
  import opened Text
  import opened Schemas

  datatype Json = JsonObject(keys: set<string>) | JsonNull | JsonOther

  predicate IsObject(j: Option<Json>) {
    j.Some? && j.value.JsonObject?
  }

  // ---------------------------------------------------------------------------
  // Uncertainty language
  // ---------------------------------------------------------------------------

  /** The alternatives of the uncertainty pattern `\b(i think|maybe|not sure|cannot confirm|unknown)\b`. */
  const UncertaintyPhrases: seq<string> := ["i think", "maybe", "not sure", "cannot confirm", "unknown"]

  /** The pattern list: one alternation. */
  const UncertaintyPatterns: seq<seq<string>> := [UncertaintyPhrases]

  /** `\w` on one character. */
  predicate IsWordChar(c: char) {
    'a' <= c <= 'z' || 'A' <= c <= 'Z' || '0' <= c <= '9' || c == '_'
  }

  /** `\b` at position j of t: a word character on exactly one side. */
  predicate WordBoundary(t: string, j: int)
    requires 0 <= j <= |t|
  {
    (j > 0 && IsWordChar(t[j - 1])) != (j < |t| && IsWordChar(t[j]))
  }

  /** Alternative p matches at position i of t with a word boundary on either side. */
  predicate WholeWordAt(t: string, p: string, i: int) {
    MatchesAt(t, p, i) && WordBoundary(t, i) && WordBoundary(t, i + |p|)
  }

  /** `re.search(r"\b(p1|...|pn)\b", t)` succeeds. */
  predicate Search(t: string, alternatives: seq<string>) {
    exists k, i | 0 <= k < |alternatives| && 0 <= i <= |t| :: WholeWordAt(t, alternatives[k], i)
  }

  /** `detect_uncertainty`: some pattern matches the lower-cased text. */
  predicate DetectUncertainty(text: string) {
    exists n | 0 <= n < |UncertaintyPatterns| :: Search(Lower(text), UncertaintyPatterns[n])
  }

  /** Hedging is detected only where one of the phrases occurs in the lower-cased text. */
  lemma UncertaintyNeedsPhrase(text: string)
    requires DetectUncertainty(text)
    ensures exists k | 0 <= k < |UncertaintyPhrases| :: Contains(Lower(text), UncertaintyPhrases[k])
  {
    var t := Lower(text);
    assert Search(t, UncertaintyPatterns[0]);
    var k, i :| 0 <= k < |UncertaintyPhrases| && 0 <= i <= |t| && WholeWordAt(t, UncertaintyPhrases[k], i);
    assert MatchesAt(t, UncertaintyPhrases[k], i);
  }

  /** A phrase standing as whole words, between text that does not touch it with a word character, is detected. */
  lemma UncertaintyDetectsStandalone(pre: string, k: nat, post: string)
    requires k < |UncertaintyPhrases|
    requires pre == [] || !IsWordChar(pre[|pre| - 1])
    requires post == [] || !IsWordChar(post[0])
    ensures DetectUncertainty(pre + UncertaintyPhrases[k] + post)
  {
    var p := UncertaintyPhrases[k];
    PhrasesAreLowerWords(k);
    WholeWordStandalone(pre, p, post);
    assert WholeWordAt(Lower(pre + p + post), UncertaintyPatterns[0][k], |pre|);
  }

  /** A lower-case phrase that starts and ends with word characters, with no word character touching it, matches. */
  lemma WholeWordStandalone(pre: string, p: string, post: string)
    requires |p| > 0 && IsWordChar(p[0]) && IsWordChar(p[|p| - 1])
    requires forall i | 0 <= i < |p| :: !('A' <= p[i] <= 'Z')
    requires pre == [] || !IsWordChar(pre[|pre| - 1])
    requires post == [] || !IsWordChar(post[0])
    ensures WholeWordAt(Lower(pre + p + post), p, |pre|)
  {
    LowerIdentity(p);
    LowerAppend(pre, p);
    LowerAppend(pre + p, post);
    var lp, lq := Lower(pre), Lower(post);
    assert Lower(pre + p + post) == lp + p + lq;
    assert lp == [] || !IsWordChar(lp[|lp| - 1]) by {
      if lp != [] { assert lp[|lp| - 1] == LowerChar(pre[|pre| - 1]); }
    }
    assert lq == [] || !IsWordChar(lq[0]) by {
      if lq != [] { assert lq[0] == LowerChar(post[0]); }
    }
    WholeWordBetween(lp, p, lq);
  }

  /** A phrase that starts and ends with word characters, with no word character touching it, matches where it stands. */
  lemma WholeWordBetween(a: string, p: string, b: string)
    requires |p| > 0 && IsWordChar(p[0]) && IsWordChar(p[|p| - 1])
    requires a == [] || !IsWordChar(a[|a| - 1])
    requires b == [] || !IsWordChar(b[0])
    ensures WholeWordAt(a + p + b, p, |a|)
  {
    var t := a + p + b;
    assert t[|a|..|a| + |p|] == p;
    assert t[|a|] == p[0] && t[|a| + |p| - 1] == p[|p| - 1];
    assert |a| > 0 ==> t[|a| - 1] == a[|a| - 1];
    assert |b| > 0 ==> t[|a| + |p|] == b[0];
  }

  /** Every phrase is lower-case, starts and ends with a word character. */
  lemma PhrasesAreLowerWords(k: nat)
    requires k < |UncertaintyPhrases|
    ensures var p := UncertaintyPhrases[k];
            |p| > 0 && IsWordChar(p[0]) && IsWordChar(p[|p| - 1])
            && forall i | 0 <= i < |p| :: !('A' <= p[i] <= 'Z')
  {
  }

  /** Upper- or lower-case, the same answers hedge. */
  lemma UncertaintyIgnoresCase(text: string)
    ensures DetectUncertainty(Lower(text)) == DetectUncertainty(text)
  {
    LowerOfLower(text);
  }

  /** A phrase that runs on into a longer word is not hedging; set off by punctuation, it is. */
  lemma UncertaintyNeedsWordBoundary()
    ensures !DetectUncertainty("unknowns")
    ensures DetectUncertainty("unknown.")
  {
    var t := "unknowns";
    LowerIdentity(t);
    forall k, i | 0 <= k < |UncertaintyPhrases| && 0 <= i <= |t|
      ensures !WholeWordAt(t, UncertaintyPhrases[k], i)
    {
      var p := UncertaintyPhrases[k];
      if MatchesAt(t, p, i) {
        assert t[i] == p[0];
        assert k == 4 && i == 0;
        assert IsWordChar(t[7]) && IsWordChar(t[6]);
      }
    }
    UncertaintyDetectsStandalone("", 4, ".");
    assert "" + UncertaintyPhrases[4] + "." == "unknown.";
  }

  // ---------------------------------------------------------------------------
  // JSON extraction
  // ---------------------------------------------------------------------------

  /** The span from the first `{` to the last `}`, when the last comes after the first. */
  function BraceSpan(text: string): (r: Option<(nat, nat)>)
    ensures r.Some? ==> r.value.0 < r.value.1 < |text|
                        && text[r.value.0] == '{' && text[r.value.1] == '}'
                        && (forall j | 0 <= j < r.value.0 :: text[j] != '{')
                        && (forall j | r.value.1 < j < |text| :: text[j] != '}')
    ensures r.None? <==> Find(text, '{') == -1 || RFind(text, '}') <= Find(text, '{')
  {
    var start := Find(text, '{');
    var end := RFind(text, '}');
    if start != -1 && end != -1 && end > start then Some((start, end)) else None
  }

  /**
   * `extract_json_block`: the whole text if it parses, else the brace span if
   * it parses, else nothing. A result is always the parse of the text or of a
   * slice of it that runs from a `{` to a `}`.
   */
  function ExtractJsonBlock(text: string, loads: string -> Option<Json>): (r: Option<Json>)
    ensures loads(text).Some? ==> r == loads(text)
    ensures loads(text).None? && Find(text, '{') != -1 && RFind(text, '}') > Find(text, '{') ==>
      r == loads(text[Find(text, '{')..RFind(text, '}') + 1])
    ensures loads(text).None? && (Find(text, '{') == -1 || RFind(text, '}') <= Find(text, '{')) ==> r.None?
    ensures r.Some? ==>
      r == loads(text) || exists i, j | 0 <= i < j < |text| && text[i] == '{' && text[j] == '}' :: r == loads(text[i..j + 1])
  {
    match loads(text)
    case Some(v) => Some(v)
    case None =>
      match BraceSpan(text)
      case Some((start, end)) => loads(text[start..end + 1])
      case None => None
  }

  /**
   * An object wrapped in chatter is recovered: when the text does not parse
   * as a whole, the chatter before the object holds no `{` and the chatter
   * after it no `}`, the object is what comes back.
   */
  lemma ExtractEmbedded(pre: string, body: string, post: string, loads: string -> Option<Json>)
    requires |body| >= 2 && body[0] == '{' && body[|body| - 1] == '}'
    requires '{' !in pre && '}' !in post
    requires loads(pre + body + post).None?
    ensures ExtractJsonBlock(pre + body + post, loads) == loads(body)
  {
    var text := pre + body + post;
    var start, end := |pre|, |pre| + |body| - 1;
    assert text[start] == '{' && text[end] == '}';
    assert forall j | 0 <= j < start :: text[j] == pre[j];
    assert forall j | end < j < |text| :: text[j] == post[j - |pre| - |body|];
    assert Find(text, '{') == start;
    assert RFind(text, '}') == end;
    assert text[start..end + 1] == body;
  }

  // ---------------------------------------------------------------------------
  // Required keys
  // ---------------------------------------------------------------------------

  /** `[k for k in required if k not in obj]`. */
  function MissingKeys(keys: set<string>, required: seq<string>): (m: seq<string>)
    ensures |m| <= |required|
    ensures forall i | 0 <= i < |m| :: m[i] in required && m[i] !in keys
    ensures forall i | 0 <= i < |required| && required[i] !in keys :: required[i] in m
  {
    if required == [] then []
    else (if required[0] in keys then [] else [required[0]]) + MissingKeys(keys, required[1..])
  }

  /**
   * The missing keys keep the order and the repeats of `required`: the list
   * for a concatenation is the concatenation of the lists, and one key is
   * listed exactly when it is absent.
   */
  lemma {:induction false} MissingKeysAppend(keys: set<string>, a: seq<string>, b: seq<string>)
    ensures MissingKeys(keys, a + b) == MissingKeys(keys, a) + MissingKeys(keys, b)
  {
    if a == [] {
      assert a + b == b;
    } else {
      assert (a + b)[0] == a[0];
      assert (a + b)[1..] == a[1..] + b;
      MissingKeysAppend(keys, a[1..], b);
    }
  }

  lemma MissingKeysOne(keys: set<string>, k: string)
    ensures MissingKeys(keys, [k]) == if k in keys then [] else [k]
  {
    assert [k][1..] == [];
  }

  /** `validate_required_keys`. */
  function ValidateRequiredKeys(keys: set<string>, required: seq<string>): (r: (bool, string))
    ensures r.0 <==> forall i | 0 <= i < |required| :: required[i] in keys
    ensures r.0 ==> r.1 == "ok"
    ensures !r.0 ==> r.1 == "missing_keys:" + ReprList(MissingKeys(keys, required))
  {
    var missing := MissingKeys(keys, required);
    if missing != [] then (false, "missing_keys:" + ReprList(missing)) else (true, "ok")
  }

  // ---------------------------------------------------------------------------
  // The whole check
  // ---------------------------------------------------------------------------

  /** More words than `max_words` allows, counting after `strip().split()`. */
  predicate TooLong(answer: string, maxWords: Option<int>) {
    maxWords.Some? && |Split(Strip(answer))| > maxWords.value
  }

  /** The JSON part of the check passes: an object with every required key. */
  predicate JsonPasses(answer: string, requiredKeys: seq<string>, loads: string -> Option<Json>) {
    var obj := ExtractJsonBlock(answer, loads);
    IsObject(obj) && forall i | 0 <= i < |requiredKeys| :: requiredKeys[i] in obj.value.keys
  }

  /** `validate_output`: the checks in order, the first failure naming the reason. */
  function ValidateOutput(answer: string, outputFormat: OutputFormat, requiredKeys: seq<string>, maxWords: Option<int>,
                          loads: string -> Option<Json>): (r: (bool, string))
    ensures r.0 <==> r.1 == "ok"
    ensures r.0 <==> !AllSpace(answer) && !TooLong(answer, maxWords) && !DetectUncertainty(answer)
                     && (outputFormat == JsonFormat ==> JsonPasses(answer, requiredKeys, loads))
    ensures r.1 == "empty_answer" <==> AllSpace(answer)
    ensures !AllSpace(answer) && TooLong(answer, maxWords) ==>
      r.1 == "too_long:" + NatToString(|Split(Strip(answer))|) + ">" + IntToString(maxWords.value)
    ensures r.1 == "uncertainty_language" <==>
      !AllSpace(answer) && !TooLong(answer, maxWords) && DetectUncertainty(answer)
    ensures r.1 == "invalid_json" <==>
      !AllSpace(answer) && !TooLong(answer, maxWords) && !DetectUncertainty(answer)
      && outputFormat == JsonFormat && !IsObject(ExtractJsonBlock(answer, loads))
    ensures !AllSpace(answer) && !TooLong(answer, maxWords) && !DetectUncertainty(answer)
            && outputFormat == JsonFormat && IsObject(ExtractJsonBlock(answer, loads)) && !r.0 ==>
      r.1 == ValidateRequiredKeys(ExtractJsonBlock(answer, loads).value.keys, requiredKeys).1
  {
    StripEmptyIffAllSpace(answer);
    if Strip(answer) == [] then
      (false, "empty_answer")
    else if maxWords.Some? && |Split(Strip(answer))| > maxWords.value then
      var n := |Split(Strip(answer))|;
      var reason := "too_long:" + NatToString(n) + ">" + IntToString(maxWords.value);
      PrefixesDiffer(reason, "ok", "", ""); PrefixesDiffer(reason, "empty_answer", "", "");
      PrefixesDiffer(reason, "uncertainty_language", "", ""); PrefixesDiffer(reason, "invalid_json", "", "");
      (false, reason)
    else if DetectUncertainty(answer) then
      (false, "uncertainty_language")
    else if outputFormat == JsonFormat then
      var obj := ExtractJsonBlock(answer, loads);
      if !IsObject(obj) then
        (false, "invalid_json")
      else
        var (ok, reason) := ValidateRequiredKeys(obj.value.keys, requiredKeys);
        if !ok then
          PrefixesDiffer(reason, "ok", "", ""); PrefixesDiffer(reason, "empty_answer", "", "");
          PrefixesDiffer(reason, "uncertainty_language", "", ""); PrefixesDiffer(reason, "invalid_json", "", "");
          (false, reason)
        else (true, "ok")
    else
      (true, "ok")
  }
}
