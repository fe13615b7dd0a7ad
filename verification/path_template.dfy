/**
 * Placeholder extraction from a route template (bolt/app.py, line 178):
 * `set(re.findall(r"{(.*?)}", path))`. The scan runs left to right; at a `{`
 * the lazy group takes everything up to the first following `}`, unless a
 * newline comes first (`.` does not match one), in which case the scan moves
 * on by one character; after a match it resumes behind the `}`.
 */
module PathTemplate {
  import opened Wrappers

  /** Index of the first `}` at or after `from`, if no newline precedes it. */
  function CloseBrace(s: string, from: nat): (r: Option<nat>)
    requires from <= |s|
    ensures r.Some? ==> from <= r.value < |s| && s[r.value] == '}'
    ensures r.Some? ==> forall k :: from <= k < r.value ==> s[k] != '}' && s[k] != '\n'
    ensures r.None? ==> forall k :: from <= k < |s| && s[k] == '}' ==> exists m :: from <= m < k && s[m] == '\n'
    decreases |s| - from
  {
    if from == |s| then None
    else if s[from] == '}' then Some(from)
    else if s[from] == '\n' then None
    else CloseBrace(s, from + 1)
  }

  /** `re.findall(r"{(.*?)}", s)`: the captured texts, in order. */
  function FindAll(s: string): seq<string>
    decreases |s|
  {
    if s == [] then []
    else if s[0] != '{' then FindAll(s[1..])
    else match CloseBrace(s, 1)
      case Some(j) => [s[1..j]] + FindAll(s[j + 1..])
      case None => FindAll(s[1..])
  }

  /** `path_param_names`: the placeholder names of a template, as a set. */
  function Placeholders(path: string): (r: set<string>)
    ensures forall x :: x in r <==> x in FindAll(path)
    ensures forall x :: x in r ==> '}' !in x && '\n' !in x && Occurs("{" + x + "}", path)
  {
    FindAllSound(path);
    set x | x in FindAll(path)
  }

  /** `t` occurs in `s` at some position. */
  ghost predicate Occurs(t: string, s: string) {
    exists i: nat :: OccursAt(t, s, i)
  }

  ghost predicate OccursAt(t: string, s: string, i: nat) {
    i + |t| <= |s| && s[i..i + |t|] == t
  }

  /** Every captured name is a piece `{name}` of the template and holds neither `}` nor a newline. */
  lemma {:induction false} FindAllSound(s: string)
    ensures forall x :: x in FindAll(s) ==> '}' !in x && '\n' !in x && Occurs("{" + x + "}", s)
    decreases |s|
  {
    if s == [] {
    } else if s[0] != '{' {
      FindAllSound(s[1..]);
      OccursShift(s, 1);
    } else {
      match CloseBrace(s, 1)
      case Some(j) =>
        FindAllSound(s[j + 1..]);
        OccursShift(s, j + 1);
        var x := s[1..j];
        assert s[0..j + 1] == "{" + x + "}";
        assert OccursAt("{" + x + "}", s, 0);
        forall c | c in x ensures c != '}' && c != '\n' {
          var k :| 0 <= k < |x| && x[k] == c;
          assert x[k] == s[k + 1];
        }
        assert '}' !in x && '\n' !in x;
        assert FindAll(s) == [x] + FindAll(s[j + 1..]);
      case None =>
        FindAllSound(s[1..]);
        OccursShift(s, 1);
    }
  }

  /** Occurring in a suffix means occurring in the whole. */
  lemma OccursShift(s: string, d: nat)
    requires d <= |s|
    ensures forall t :: Occurs(t, s[d..]) ==> Occurs(t, s)
  {
    forall t | Occurs(t, s[d..]) ensures Occurs(t, s) {
      var i: nat :| OccursAt(t, s[d..], i);
      assert s[d + i..d + i + |t|] == t;
      assert OccursAt(t, s, d + i);
    }
  }

  /** A template as literal text and `{name}` pieces. */
  datatype Segment = Literal(text: string) | Placeholder(name: string)

  /** Literal text holds no `{`; a placeholder name holds no `}` and no newline. */
  predicate WellFormed(seg: Segment) {
    match seg
    case Literal(text) => '{' !in text
    case Placeholder(name) => '}' !in name && '\n' !in name
  }

  function Render(segs: seq<Segment>): string {
    if segs == [] then ""
    else
      (match segs[0] case Literal(t) => t case Placeholder(n) => "{" + n + "}") + Render(segs[1..])
  }

  function Names(segs: seq<Segment>): seq<string> {
    if segs == [] then []
    else (match segs[0] case Literal(_) => [] case Placeholder(n) => [n]) + Names(segs[1..])
  }

  /** Extraction inverts rendering: a well-formed template yields exactly its placeholder names, in order. */
  lemma {:induction false} RenderRoundTrip(segs: seq<Segment>)
    requires forall i :: 0 <= i < |segs| ==> WellFormed(segs[i])
    ensures FindAll(Render(segs)) == Names(segs)
  {
    if segs != [] {
      RenderRoundTrip(segs[1..]);
      var rest := Render(segs[1..]);
      match segs[0]
      case Literal(t) => SkipLiteral(t, rest);
      case Placeholder(n) => TakePlaceholder(n, rest);
    }
  }

  /** Text without `{` contributes nothing. */
  lemma {:induction false} SkipLiteral(t: string, rest: string)
    requires '{' !in t
    ensures FindAll(t + rest) == FindAll(rest)
  {
    if t != [] {
      var s := t + rest;
      assert s[0] == t[0] && s[0] != '{';
      assert s[1..] == t[1..] + rest;
      assert '{' !in t[1..] by {
        forall c | c in t[1..] ensures c != '{' { var k :| 0 <= k < |t[1..]| && t[1..][k] == c; assert t[k + 1] == c; }
      }
      SkipLiteral(t[1..], rest);
      assert FindAll(s) == FindAll(s[1..]);
    } else {
      assert t + rest == rest;
    }
  }

  /** `{name}` contributes `name` and the scan resumes behind its `}`. */
  lemma TakePlaceholder(n: string, rest: string)
    requires '}' !in n && '\n' !in n
    ensures FindAll("{" + n + "}" + rest) == [n] + FindAll(rest)
  {
    var s := "{" + n + "}" + rest;
    forall k | 1 <= k <= |n| ensures s[k] == n[k - 1] { }
    CloseBraceReaches(s, 1, |n| + 1);
    assert s[1..|n| + 1] == n;
    assert s[|n| + 2..] == rest;
  }

  lemma {:induction false} CloseBraceReaches(s: string, from: nat, j: nat)
    requires from <= j < |s| && s[j] == '}'
    requires forall k :: from <= k < j ==> s[k] != '}' && s[k] != '\n'
    ensures CloseBrace(s, from) == Some(j)
    decreases j - from
  {
    if from < j { CloseBraceReaches(s, from + 1, j); }
  }
}
