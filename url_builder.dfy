/**
 * `buildUrl` from the shared route table: fills the `:name` placeholders of a
 * route path from a parameter record, one entry at a time.
 */
module UrlBuilder {
  import opened Wrappers
  import opened Text

  /** A parameter value: the record's values are strings or numbers (integers here). */
  datatype ParamValue = Str(s: string) | Num(n: int)

  /** The entries of the record, in the order `Object.entries` yields them. */
  type Params = seq<(string, ParamValue)>

  /**
   * `String(value)`: a string is itself; a number gives its decimal digits, which
   * contain no `$` and read back as the number.
   */
  function Stringify(v: ParamValue): (r: string)
    ensures v.Str? ==> r == v.s
    ensures v.Num? ==> '$' !in r && ParseInt(r) == v.n
  {
    match v
    case Str(s) => s
    case Num(n) => IntToStringRoundTrip(n); IntToString(n)
  }

  /**
   * The replacement text `String.prototype.replace` inserts for a string pattern:
   * `$$`, `$&`, `` $` `` and `$'` are expanded (to `$`, the match, the text before
   * and the text after it); every other character, `$` included, is copied. A
   * replacement without `$` is inserted literally.
   */
  function Expand(rep: string, matched: string, before: string, after: string): (r: string)
    ensures '$' !in rep ==> r == rep
    ensures rep == "$&" ==> r == matched
    decreases |rep|
  {
    if |rep| >= 2 && rep[0] == '$' && rep[1] in "$&`'" then
      var piece := if rep[1] == '$' then "$" else if rep[1] == '&' then matched
                   else if rep[1] == '`' then before else after;
      piece + Expand(rep[2..], matched, before, after)
    else if rep == [] then []
    else [rep[0]] + Expand(rep[1..], matched, before, after)
  }

  /**
   * `url.replace(pat, rep)` with a string pattern: only the first occurrence is
   * replaced, and a replacement without `$` is inserted as it is.
   */
  function ReplaceFirst(url: string, pat: string, rep: string): (r: string)
    ensures !Contains(url, pat) ==> r == url
    ensures Contains(url, pat) && '$' !in rep ==>
      var i := IndexOf(url, pat).value;
      r == url[..i] + rep + url[i + |pat|..]
  {
    match IndexOf(url, pat)
    case None => url
    case Some(i) =>
      var before, after := url[..i], url[i + |pat|..];
      before + Expand(rep, pat, before, after) + after
  }

  /**
   * One step of the `forEach`: substitute `value` for `:key` if the url mentions
   * it. A url without the placeholder is unchanged; otherwise a value with no `$`
   * takes the place of the first placeholder's `|key| + 1` characters.
   */
  function Substitute(url: string, key: string, value: ParamValue): (r: string)
    ensures !Contains(url, ":" + key) ==> r == url
    ensures Contains(url, ":" + key) && '$' !in Stringify(value) ==>
      |r| == |url| - (|key| + 1) + |Stringify(value)|
    ensures Contains(url, ":" + key) && '$' !in Stringify(value) ==>
      var i := IndexOf(url, ":" + key).value;
      r == url[..i] + Stringify(value) + url[i + |key| + 1..]
  {
    var pat := ":" + key;
    if Contains(url, pat) then ReplaceFirst(url, pat, Stringify(value)) else url
  }

  /**
   * The url after the entries have been applied, each to the previous result.
   * When the path mentions none of the entries' placeholders, it comes back as it is.
   */
  function ApplyParams(path: string, params: Params): (r: string)
    ensures (forall k :: 0 <= k < |params| ==> !Contains(path, ":" + params[k].0)) ==> r == path
  {
    if params == [] then path
    else
      var last := params[|params| - 1];
      Substitute(ApplyParams(path, params[..|params| - 1]), last.0, last.1)
  }

  /** `buildUrl(path, params)`; an absent record leaves the path as it is. */
  method BuildUrl(path: string, params: Option<Params>) returns (url: string)
    ensures params.Some? ==> url == ApplyParams(path, params.value)
    ensures params.None? || params.value == [] ==> url == path
  {
    url := path;
    if params.Some? {
      var entries := params.value;
      var k := 0;
      while k < |entries|
        invariant 0 <= k <= |entries|
        invariant url == ApplyParams(path, entries[..k])
      {
        var (key, value) := entries[k];
        assert entries[..k + 1][..k] == entries[..k];
        ghost var next := Substitute(url, key, value);
        assert ApplyParams(path, entries[..k + 1]) == next;
        if Contains(url, ":" + key) {
          url := ReplaceFirst(url, ":" + key, Stringify(value));
        }
        assert url == next;
        k := k + 1;
      }
      assert entries[..|entries|] == entries;
    }
  }

  /** A key whose placeholder the url does not mention changes nothing. */
  lemma AbsentKeyUnchanged(url: string, key: string, value: ParamValue)
    requires forall i :: !OccursAt(url, ":" + key, i)
    ensures Substitute(url, key, value) == url
  {
  }

  /**
   * A key whose placeholder first occurs at `i` has exactly that occurrence
   * replaced by the value's text, provided the text has no `$` in it.
   */
  lemma ReplacesFirstOccurrence(url: string, key: string, value: ParamValue, i: nat)
    requires OccursAt(url, ":" + key, i)
    requires forall j :: 0 <= j < i ==> !OccursAt(url, ":" + key, j)
    requires '$' !in Stringify(value)
    ensures Substitute(url, key, value) == url[..i] + Stringify(value) + url[i + |key| + 1..]
  {
    var pat := ":" + key;
    assert IndexOf(url, pat) == Some(i);
    assert ReplaceFirst(url, pat, Stringify(value)) == url[..i] + Stringify(value) + url[i + |pat|..];
  }

  /** Applying `ps` and then `qs` is applying `ps + qs`: entries act in sequence. */
  lemma {:induction false} ApplyInSequence(path: string, ps: Params, qs: Params)
    ensures ApplyParams(path, ps + qs) == ApplyParams(ApplyParams(path, ps), qs)
  {
    if qs == [] {
      assert ps + qs == ps;
    } else {
      var qs' := qs[..|qs| - 1];
      assert (ps + qs)[..|ps + qs| - 1] == ps + qs';
      assert (ps + qs)[|ps + qs| - 1] == qs[|qs| - 1];
      ApplyInSequence(path, ps, qs');
    }
  }

  /** A placeholder starts with `:`, so a text that contains one contains `:`. */
  lemma PlaceholderNeedsColon(s: string, key: string)
    ensures Contains(s, ":" + key) ==> ':' in s
  {
    if Contains(s, ":" + key) {
      var i := IndexOf(s, ":" + key).value;
      assert s[i] == s[i..i + |key| + 1][0];
    }
  }

  /** A path with no `:` has no placeholders and comes back unchanged, whatever the parameters. */
  lemma NoColonUnchanged(path: string, params: Params)
    requires ':' !in path
    ensures ApplyParams(path, params) == path
  {
    forall k | 0 <= k < |params| ensures !Contains(path, ":" + params[k].0) {
      PlaceholderNeedsColon(path, params[k].0);
    }
  }

  /** The book route: `buildUrl('/api/books/:id', {id: n})` is `'/api/books/' + String(n)`. */
  lemma BookPathExample(n: int)
    ensures ApplyParams("/api/books/:id", [("id", Num(n))]) == "/api/books/" + IntToString(n)
  {
    var path := "/api/books/:id";
    var ps: Params := [("id", Num(n))];
    assert ps[..0] == [];
    assert OccursAt(path, ":id", 11);
    forall j | 0 <= j < 11 ensures !OccursAt(path, ":id", j) {
      assert path[j] != ':';
    }
    ReplacesFirstOccurrence(path, "id", Num(n), 11);
    assert path[..11] == "/api/books/";
    assert path[14..] == "";
  }

  /**
   * A text value containing `$&` is not inserted literally: the placeholder is
   * replaced by itself, so `buildUrl('/x/:id', {id: '$&'})` is `'/x/:id'`.
   */
  lemma DollarValueExpands()
    ensures Substitute("/x/:id", "id", Str("$&")) == "/x/:id"
  {
  }
}
