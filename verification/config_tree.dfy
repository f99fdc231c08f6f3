/**
  Configuration values as loaded from YAML, dictionary lookup and update with
  Python's semantics, and placeholder substitution over strings and trees
  (`substitute_placeholders`, `substitute_in_dict`).
 */
module ConfigTree {
  import opened Common

  /** A YAML value. A dictionary keeps its entries in insertion order. */
  datatype Value =
    | Null
    | Bool(b: bool)
    | Int(i: int)
    | Real(r: real)
    | Str(s: string)
    | List(items: seq<Value>)
    | Dict(entries: seq<Entry>)

  datatype Entry = Entry(key: string, val: Value)

  /** Python truthiness: `None`, `False`, zero and empty containers are false. */
  predicate Truthy(v: Value)
  {
    match v
    case Null => false
    case Bool(b) => b
    case Int(i) => i != 0
    case Real(r) => r != 0.0
    case Str(s) => s != ""
    case List(items) => items != []
    case Dict(entries) => entries != []
  }

  /** Keys of a dictionary, in order. */
  function Keys(d: seq<Entry>): (ks: seq<string>)
    ensures |ks| == |d|
    ensures forall i :: 0 <= i < |d| ==> ks[i] == d[i].key
  {
    if |d| == 0 then [] else [d[0].key] + Keys(d[1..])
  }

  /** A Python dictionary has no repeated key. */
  predicate UniqueKeys(d: seq<Entry>)
  {
    forall i, j :: 0 <= i < j < |d| ==> d[i].key != d[j].key
  }

  /** `key in d`. */
  predicate HasKey(d: seq<Entry>, key: string)
  {
    key in Keys(d)
  }

  /** `d[key]` when present. */
  function Lookup(d: seq<Entry>, key: string): (r: Option<Value>)
    ensures r.Some? <==> HasKey(d, key)
  {
    if |d| == 0 then None
    else if d[0].key == key then Some(d[0].val)
    else Lookup(d[1..], key)
  }

  /** `d.get(key, default)`. */
  function Get(d: seq<Entry>, key: string, default: Value): Value
  {
    match Lookup(d, key)
    case Some(v) => v
    case None => default
  }

  /** `d[key] = v`: the key now holds `v`, every other key is unchanged. */
  function Set(d: seq<Entry>, key: string, v: Value): (r: seq<Entry>)
    ensures Lookup(r, key) == Some(v)
    ensures forall k :: k != key ==> Lookup(r, k) == Lookup(d, k)
  {
    if |d| == 0 then [Entry(key, v)]
    else if d[0].key == key then [Entry(key, v)] + d[1..]
    else [d[0]] + Set(d[1..], key, v)
  }

  /** An existing key keeps its position; a new key goes last. */
  lemma {:induction false} SetKeys(d: seq<Entry>, key: string, v: Value)
    ensures HasKey(d, key) ==> Keys(Set(d, key, v)) == Keys(d)
    ensures !HasKey(d, key) ==> Keys(Set(d, key, v)) == Keys(d) + [key]
  {
    if |d| > 0 && d[0].key != key {
      SetKeys(d[1..], key, v);
      assert Keys(d) == [d[0].key] + Keys(d[1..]);
      assert Keys(Set(d, key, v)) == [d[0].key] + Keys(Set(d[1..], key, v));
    } else if |d| > 0 {
      assert Keys(Set(d, key, v)) == Keys(d);
    }
  }

  /** Assignment keeps a dictionary free of repeated keys. */
  lemma SetKeepsUniqueKeys(d: seq<Entry>, key: string, v: Value)
    requires UniqueKeys(d)
    ensures UniqueKeys(Set(d, key, v))
  {
    SetKeys(d, key, v);
    var r := Set(d, key, v);
    forall i, j | 0 <= i < j < |r|
      ensures r[i].key != r[j].key
    {
      assert r[i].key == Keys(r)[i] && r[j].key == Keys(r)[j];
      if j == |d| {
        assert !HasKey(d, key) && Keys(r)[j] == key && Keys(r)[i] == Keys(d)[i];
      } else {
        assert Keys(r)[i] == Keys(d)[i] && Keys(r)[j] == Keys(d)[j];
      }
    }
  }

  /** `d.update(u)`: each entry of `u`, in order, assigned into `d`. */
  function Update(d: seq<Entry>, u: seq<Entry>): seq<Entry>
    decreases |u|
  {
    if |u| == 0 then d else Update(Set(d, u[0].key, u[0].val), u[1..])
  }

  /** After `d.update(u)`, a key of `u` holds `u`'s value verbatim; other keys are unchanged. */
  lemma {:induction false} UpdateLookup(d: seq<Entry>, u: seq<Entry>, k: string)
    requires UniqueKeys(u)
    ensures HasKey(u, k) ==> Lookup(Update(d, u), k) == Lookup(u, k)
    ensures !HasKey(u, k) ==> Lookup(Update(d, u), k) == Lookup(d, k)
    decreases |u|
  {
    if |u| > 0 {
      assert Keys(u) == [u[0].key] + Keys(u[1..]);
      UpdateLookup(Set(d, u[0].key, u[0].val), u[1..], k);
      forall j | 0 <= j < |u[1..]|
        ensures Keys(u[1..])[j] != u[0].key
      {
        assert u[1..][j] == u[j + 1];
      }
      assert !HasKey(u[1..], u[0].key);
    }
  }

  /** `"{" + key + "}"`. */
  function Placeholder(key: string): string
  {
    "{" + key + "}"
  }

  /** `pat` occurs in `text` starting at `i`. */
  predicate OccursAt(text: string, pat: string, i: nat)
  {
    i + |pat| <= |text| && text[i..i + |pat|] == pat
  }

  /** `text.replace(pat, rep)` for a non-empty pattern: non-overlapping, left to right. */
  function ReplaceAll(text: string, pat: string, rep: string): string
    requires |pat| > 0
    decreases |text|
  {
    if |text| < |pat| then text
    else if text[..|pat|] == pat then rep + ReplaceAll(text[|pat|..], pat, rep)
    else [text[0]] + ReplaceAll(text[1..], pat, rep)
  }

  /** A text in which the pattern never occurs is left unchanged. */
  lemma {:induction false} ReplaceAbsent(text: string, pat: string, rep: string)
    requires |pat| > 0
    requires forall i :: 0 <= i <= |text| ==> !OccursAt(text, pat, i)
    ensures ReplaceAll(text, pat, rep) == text
  {
    if |text| >= |pat| {
      assert !OccursAt(text, pat, 0);
      forall i | 0 <= i <= |text[1..]|
        ensures OccursAt(text[1..], pat, i) <==> OccursAt(text, pat, i + 1)
      {
        if i + |pat| <= |text[1..]| {
          assert text[1..][i..i + |pat|] == text[i + 1..i + 1 + |pat|];
        }
      }
      ReplaceAbsent(text[1..], pat, rep);
    }
  }

  /** Occurrences in `y` are occurrences in `x + y`, shifted by `|x|`. */
  lemma OccursAfterPrefix(x: string, y: string, pat: string, i: nat)
    requires i <= |y|
    ensures OccursAt(x + y, pat, |x| + i) <==> OccursAt(y, pat, i)
  {
    if i + |pat| <= |y| {
      assert (x + y)[|x| + i..|x| + i + |pat|] == y[i..i + |pat|];
    }
  }

  /**
    When `{key}` does not start anywhere inside the prefix `a`, the first
    replacement is the placeholder right after `a`, and replacement resumes
    after it.
   */
  lemma {:induction false} ReplacePlaceholderFirst(a: string, key: string, rep: string, b: string)
    requires forall i :: 0 <= i < |a| ==> !OccursAt(a + Placeholder(key) + b, Placeholder(key), i)
    ensures ReplaceAll(a + Placeholder(key) + b, Placeholder(key), rep)
            == a + rep + ReplaceAll(b, Placeholder(key), rep)
  {
    var pat := Placeholder(key);
    var text := a + pat + b;
    if |a| == 0 {
      assert text == pat + b;
      assert text[..|pat|] == pat && text[|pat|..] == b;
    } else {
      assert !OccursAt(text, pat, 0);
      assert text[1..] == a[1..] + pat + b;
      assert text == [text[0]] + text[1..];
      forall i | 0 <= i < |a[1..]|
        ensures !OccursAt(a[1..] + pat + b, pat, i)
      {
        OccursAfterPrefix([text[0]], text[1..], pat, i);
      }
      ReplacePlaceholderFirst(a[1..], key, rep, b);
      assert a == [a[0]] + a[1..];
    }
  }

  /** A placeholder that is the only occurrence of its pattern is replaced, and nothing else changes. */
  lemma ReplaceSoleOccurrence(x: string, key: string, rep: string, y: string)
    requires forall i :: 0 <= i <= |x + Placeholder(key) + y| && i != |x| ==>
               !OccursAt(x + Placeholder(key) + y, Placeholder(key), i)
    ensures ReplaceAll(x + Placeholder(key) + y, Placeholder(key), rep) == x + rep + y
  {
    var pat := Placeholder(key);
    ReplacePlaceholderFirst(x, key, rep, y);
    forall i | 0 <= i <= |y|
      ensures !OccursAt(y, pat, i)
    {
      OccursAfterPrefix(x + pat, y, pat, i);
    }
    ReplaceAbsent(y, pat, rep);
  }

  /** A placeholder can only start at a `{`. */
  lemma NoOccurrenceWithoutBrace(t: string, key: string, i: nat)
    requires i < |t| && t[i] != '{'
    ensures !OccursAt(t, Placeholder(key), i)
  {
    if i + |Placeholder(key)| <= |t| {
      assert t[i..i + |Placeholder(key)|][0] == t[i];
    }
  }

  /** Where one placeholder starts, no placeholder of another `}`-free key starts. */
  lemma DistinctPlaceholdersAt(t: string, k: string, q: string, i: nat)
    requires '}' !in k && '}' !in q && k != q
    requires OccursAt(t, Placeholder(q), i)
    ensures !OccursAt(t, Placeholder(k), i)
  {
    var pk, pq := Placeholder(k), Placeholder(q);
    if i + |pk| <= |t| {
      var w := t[i..i + |pk|];
      if |k| < |q| {
        assert w[1 + |k|] == pq[1 + |k|] == q[|k|] && q[|k|] in q;
        assert pk[1 + |k|] == '}';
      } else if |k| > |q| {
        assert w[1 + |q|] == pq[1 + |q|] == '}';
        assert pk[1 + |q|] == k[|q|] && k[|q|] in k;
      } else {
        assert w[1..1 + |k|] == pq[1..1 + |q|] == q;
        assert pk[1..1 + |k|] == k;
      }
    }
  }

  /** No placeholder starts inside a `{`-free stretch of the text. */
  lemma BraceFreeSlice(t: string, key: string, lo: nat, hi: nat)
    requires lo <= hi <= |t| && '{' !in t[lo..hi]
    ensures forall i :: lo <= i < hi ==> !OccursAt(t, Placeholder(key), i)
  {
    forall i | lo <= i < hi
      ensures !OccursAt(t, Placeholder(key), i)
    {
      assert t[i] == t[lo..hi][i - lo];
      NoOccurrenceWithoutBrace(t, key, i);
    }
  }

  /** Only the first character of a placeholder of a `{`-free key is a `{`. */
  lemma PlaceholderTail(key: string)
    requires '{' !in key
    ensures '{' !in Placeholder(key)[1..]
  {
    assert Placeholder(key)[1..] == key + "}";
  }

  /** A `{`-free text holds no placeholder, so replacement leaves it unchanged. */
  lemma BraceFreeUnchanged(t: string, key: string, rep: string)
    requires '{' !in t
    ensures ReplaceAll(t, Placeholder(key), rep) == t
  {
    assert t[0..|t|] == t;
    BraceFreeSlice(t, key, 0, |t|);
    ReplaceAbsent(t, Placeholder(key), rep);
  }

  /** In a text whose only `{` opens the placeholder, that placeholder is replaced and nothing else. */
  lemma ReplaceSoleBrace(x: string, key: string, rep: string, y: string)
    requires '{' !in x && '{' !in y
    ensures ReplaceAll(x + Placeholder(key) + y, Placeholder(key), rep) == x + rep + y
  {
    var t := x + Placeholder(key) + y;
    assert t[0..|x|] == x;
    BraceFreeSlice(t, key, 0, |x|);
    ReplacePlaceholderFirst(x, key, rep, y);
    BraceFreeUnchanged(y, key, rep);
  }

  /**
    In `m + {q} + c` with `{`-free `m`, `c` and `q`, no placeholder of another
    `}`-free key occurs.
   */
  lemma OtherPlaceholderAbsent(m: string, q: string, c: string, k: string)
    requires '{' !in m && '{' !in c
    requires '{' !in q && '}' !in k && '}' !in q && k != q
    ensures forall i :: 0 <= i <= |m + Placeholder(q) + c| ==> !OccursAt(m + Placeholder(q) + c, Placeholder(k), i)
  {
    var pq := Placeholder(q);
    var u := m + pq + c;
    assert u[0..|m|] == m;
    BraceFreeSlice(u, k, 0, |m|);
    assert u[|m|..|m| + |pq|] == pq;
    DistinctPlaceholdersAt(u, k, q, |m|);
    PlaceholderTail(q);
    assert u[|m| + 1..|u|] == pq[1..] + c;
    BraceFreeSlice(u, k, |m| + 1, |u|);
  }

  /** The placeholder of `k` that precedes one of another key is replaced; the other stays. */
  lemma ReplaceBeforeOther(a: string, k: string, q: string, m: string, c: string, rep: string)
    requires '{' !in a && '{' !in m && '{' !in c
    requires '{' !in q && '}' !in k && '}' !in q && k != q
    ensures ReplaceAll(a + Placeholder(k) + (m + Placeholder(q) + c), Placeholder(k), rep)
            == a + rep + (m + Placeholder(q) + c)
  {
    var t := a + Placeholder(k) + (m + Placeholder(q) + c);
    assert t[0..|a|] == a;
    BraceFreeSlice(t, k, 0, |a|);
    ReplacePlaceholderFirst(a, k, rep, m + Placeholder(q) + c);
    OtherPlaceholderAbsent(m, q, c, k);
    ReplaceAbsent(m + Placeholder(q) + c, Placeholder(k), rep);
  }

  /** The placeholder of `k` that follows one of another key is replaced; the other stays. */
  lemma ReplaceAfterOther(a: string, q: string, m: string, k: string, c: string, rep: string)
    requires '{' !in a && '{' !in m && '{' !in c
    requires '{' !in q && '}' !in k && '}' !in q && k != q
    ensures ReplaceAll((a + Placeholder(q) + m) + Placeholder(k) + c, Placeholder(k), rep)
            == (a + Placeholder(q) + m) + rep + c
  {
    var x := a + Placeholder(q) + m;
    var t := x + Placeholder(k) + c;
    assert t[0..|a|] == a;
    BraceFreeSlice(t, k, 0, |a|);
    assert t[|a|..|a| + |Placeholder(q)|] == Placeholder(q);
    DistinctPlaceholdersAt(t, k, q, |a|);
    PlaceholderTail(q);
    assert t[|a| + 1..|x|] == Placeholder(q)[1..] + m;
    BraceFreeSlice(t, k, |a| + 1, |x|);
    ReplacePlaceholderFirst(x, k, rep, c);
    BraceFreeUnchanged(c, k, rep);
  }

  /** The string case of `substitute_placeholders`: each `{key}` replaced, one key after the other. */
  function SubstituteText(text: string, subs: seq<(string, string)>): string
    decreases |subs|
  {
    if |subs| == 0 then text
    else SubstituteText(ReplaceAll(text, Placeholder(subs[0].0), subs[0].1), subs[1..])
  }

  /** `substitute_placeholders`: strings are rewritten, any other value is returned as is. */
  function SubstitutePlaceholders(v: Value, subs: seq<(string, string)>): (r: Value)
    ensures !v.Str? ==> r == v
    ensures v.Str? ==> r.Str?
    ensures v.Str? && '{' !in v.s ==> r == v
    ensures subs == [] ==> r == v
  {
    if v.Str? then
      SubstituteTextIdentity(v.s, subs);
      Str(SubstituteText(v.s, subs))
    else v
  }

  /** With no substitution, or a text without `{`, substitution is the identity. */
  lemma {:induction false} SubstituteTextIdentity(text: string, subs: seq<(string, string)>)
    ensures subs == [] || '{' !in text ==> SubstituteText(text, subs) == text
  {
    if |subs| > 0 && '{' !in text {
      var pat := Placeholder(subs[0].0);
      forall i | 0 <= i && i + |pat| <= |text|
        ensures text[i..i + |pat|][0] == text[i] && text[i] in text
      {
      }
      assert pat[0] == '{';
      assert forall i :: 0 <= i <= |text| ==> !OccursAt(text, pat, i);
      ReplaceAbsent(text, pat, subs[0].1);
      SubstituteTextIdentity(text, subs[1..]);
    }
  }

  /** Substituting a concatenation of tables is substituting one table after the other. */
  lemma {:induction false} SubstituteTextAppend(text: string, s1: seq<(string, string)>, s2: seq<(string, string)>)
    ensures SubstituteText(text, s1 + s2) == SubstituteText(SubstituteText(text, s1), s2)
    decreases |s1|
  {
    if |s1| == 0 {
      assert s1 + s2 == s2;
    } else {
      assert (s1 + s2)[0] == s1[0];
      assert (s1 + s2)[1..] == s1[1..] + s2;
      SubstituteTextAppend(ReplaceAll(text, Placeholder(s1[0].0), s1[0].1), s1[1..], s2);
    }
  }

  /** A string in which `{key}` occurs exactly once gets exactly that placeholder replaced. */
  lemma SubstituteOnePlaceholder(a: string, key: string, rep: string, b: string)
    requires forall i :: 0 <= i <= |a + Placeholder(key) + b| && i != |a| ==>
               !OccursAt(a + Placeholder(key) + b, Placeholder(key), i)
    ensures SubstitutePlaceholders(Str(a + Placeholder(key) + b), [(key, rep)]) == Str(a + rep + b)
  {
    var subs := [(key, rep)];
    assert subs[1..] == [];
    ReplaceSoleOccurrence(a, key, rep, b);
    assert SubstituteText(a + Placeholder(key) + b, subs) == ReplaceAll(a + Placeholder(key) + b, Placeholder(key), rep);
  }

  /**
    A template with placeholders for two different keys, such as
    `{results_dir}/{patient_id}/...`, and `{`-free surrounding text and
    values, gets both replaced, whichever key the table lists first.
   */
  lemma SubstituteTwoPlaceholders(a: string, k1: string, v1: string, m: string, k2: string, v2: string, c: string)
    requires '{' !in a && '{' !in m && '{' !in c && '{' !in v1 && '{' !in v2
    requires '{' !in k1 && '{' !in k2 && '}' !in k1 && '}' !in k2 && k1 != k2
    ensures SubstituteText(a + Placeholder(k1) + m + Placeholder(k2) + c, [(k1, v1), (k2, v2)])
            == a + v1 + m + v2 + c
    ensures SubstituteText(a + Placeholder(k1) + m + Placeholder(k2) + c, [(k2, v2), (k1, v1)])
            == a + v1 + m + v2 + c
  {
    var t := a + Placeholder(k1) + m + Placeholder(k2) + c;
    SubstituteTwoSteps(t, k1, v1, k2, v2);
    ReplaceTwoInOrder(a, k1, v1, m, k2, v2, c);
    SubstituteTwoSteps(t, k2, v2, k1, v1);
    ReplaceTwoInReverse(a, k1, v1, m, k2, v2, c);
  }

  /** A two-entry table replaces the first key's placeholder, then the second's. */
  lemma SubstituteTwoSteps(t: string, k1: string, v1: string, k2: string, v2: string)
    ensures SubstituteText(t, [(k1, v1), (k2, v2)])
            == ReplaceAll(ReplaceAll(t, Placeholder(k1), v1), Placeholder(k2), v2)
  {
    var subs := [(k1, v1), (k2, v2)];
    var t1 := ReplaceAll(t, Placeholder(k1), v1);
    var t2 := ReplaceAll(t1, Placeholder(k2), v2);
    assert subs[0] == (k1, v1) && subs[1..] == [(k2, v2)];
    assert SubstituteText(t, subs) == SubstituteText(t1, [(k2, v2)]);
    assert [(k2, v2)][0] == (k2, v2) && [(k2, v2)][1..] == [];
    assert SubstituteText(t1, [(k2, v2)]) == SubstituteText(t2, []) == t2;
  }

  /** Concatenating `{`-free strings gives a `{`-free string. */
  lemma BraceFreeConcat(x: string, y: string)
    requires '{' !in x && '{' !in y
    ensures '{' !in x + y
  {
    forall j | 0 <= j < |x + y|
      ensures (x + y)[j] != '{'
    {
      if j < |x| {
        assert (x + y)[j] == x[j] && x[j] in x;
      } else {
        assert (x + y)[j] == y[j - |x|] && y[j - |x|] in y;
      }
    }
  }

  /** Replacing the first placeholder's key, then the second's. */
  lemma ReplaceTwoInOrder(a: string, k1: string, v1: string, m: string, k2: string, v2: string, c: string)
    requires '{' !in a && '{' !in m && '{' !in c && '{' !in v1
    requires '{' !in k2 && '}' !in k1 && '}' !in k2 && k1 != k2
    ensures ReplaceAll(ReplaceAll(a + Placeholder(k1) + m + Placeholder(k2) + c, Placeholder(k1), v1), Placeholder(k2), v2)
            == a + v1 + m + v2 + c
  {
    var p1, p2 := Placeholder(k1), Placeholder(k2);
    var t := a + p1 + m + p2 + c;
    var u := m + p2 + c;
    var x := a + v1 + m;
    assert t == a + p1 + u;
    ReplaceBeforeOther(a, k1, k2, m, c, v1);
    BraceFreeConcat(a, v1);
    BraceFreeConcat(a + v1, m);
    assert a + v1 + u == x + p2 + c;
    ReplaceSoleBrace(x, k2, v2, c);
  }

  /** Replacing the second placeholder's key, then the first's. */
  lemma ReplaceTwoInReverse(a: string, k1: string, v1: string, m: string, k2: string, v2: string, c: string)
    requires '{' !in a && '{' !in m && '{' !in c && '{' !in v2
    requires '{' !in k1 && '}' !in k1 && '}' !in k2 && k1 != k2
    ensures ReplaceAll(ReplaceAll(a + Placeholder(k1) + m + Placeholder(k2) + c, Placeholder(k2), v2), Placeholder(k1), v1)
            == a + v1 + m + v2 + c
  {
    var p1, p2 := Placeholder(k1), Placeholder(k2);
    var t := a + p1 + m + p2 + c;
    var y := m + v2 + c;
    ReplaceAfterOther(a, k1, m, k2, c, v2);
    BraceFreeConcat(m, v2);
    BraceFreeConcat(m + v2, c);
    assert (a + p1 + m) + v2 + c == a + p1 + y;
    ReplaceSoleBrace(a, k1, v1, y);
    assert a + v1 + y == a + v1 + m + v2 + c;
  }

  /**
    Keys are processed one after the other, so a value inserted for an
    earlier key is itself rewritten by a later key, and the order matters.
   */
  lemma SubstitutionIsSequential()
    ensures SubstituteText("{a}", [("a", "{b}"), ("b", "x")]) == "x"
    ensures SubstituteText("{a}", [("b", "x"), ("a", "{b}")]) == "{b}"
  {
    assert ReplaceAll("{a}", "{a}", "{b}") == "{b}" by {
      assert "{a}"[..3] == "{a}";
      assert "{a}"[3..] == "";
    }
    assert ReplaceAll("{b}", "{b}", "x") == "x" by {
      assert "{b}"[..3] == "{b}";
      assert "{b}"[3..] == "";
    }
    assert ReplaceAll("{a}", "{b}", "x") == "{a}" by {
      assert "{a}"[..3] != "{b}";
      assert "{a}"[1..] == "a}";
      assert "a}"[1..] == "}";
    }
    assert SubstituteText("{b}", [("b", "x")]) == "x" by {
      assert [("b", "x")][1..] == [];
    }
    assert [("a", "{b}"), ("b", "x")][1..] == [("b", "x")];
    assert [("b", "x"), ("a", "{b}")][1..] == [("a", "{b}")];
    assert [("a", "{b}")][1..] == [];
  }

  /** `substitute_in_dict`: rewrite every string leaf, rebuilding dictionaries and lists in order. */
  function SubstituteInDict(v: Value, subs: seq<(string, string)>): Value
    decreases v
  {
    match v
    case Dict(es) =>
      Dict(seq(|es|, i requires 0 <= i < |es| => Entry(es[i].key, SubstituteInDict(es[i].val, subs))))
    case List(items) =>
      List(seq(|items|, i requires 0 <= i < |items| => SubstituteInDict(items[i], subs)))
    case Str(_) => SubstitutePlaceholders(v, subs)
    case _ => v
  }

  /**
    `w` has the shape of `v`: the same dictionary keys in the same order, the
    same list lengths, a string wherever `v` has one, and every non-string
    leaf unchanged.
   */
  predicate SameShape(v: Value, w: Value)
    decreases v
  {
    match v
    case Dict(es) =>
      && w.Dict? && |w.entries| == |es|
      && forall i :: 0 <= i < |es| ==>
           w.entries[i].key == es[i].key && SameShape(es[i].val, w.entries[i].val)
    case List(items) =>
      && w.List? && |w.items| == |items|
      && forall i :: 0 <= i < |items| ==> SameShape(items[i], w.items[i])
    case Str(_) => w.Str?
    case _ => w == v
  }

  /** `substitute_in_dict` changes string leaves only. */
  lemma {:induction false} SubstituteInDictKeepsShape(v: Value, subs: seq<(string, string)>)
    ensures SameShape(v, SubstituteInDict(v, subs))
    decreases v
  {
    match v
    case Dict(es) =>
      forall i | 0 <= i < |es|
        ensures SameShape(es[i].val, SubstituteInDict(v, subs).entries[i].val)
      {
        SubstituteInDictKeepsShape(es[i].val, subs);
      }
    case List(items) =>
      forall i | 0 <= i < |items|
        ensures SameShape(items[i], SubstituteInDict(v, subs).items[i])
      {
        SubstituteInDictKeepsShape(items[i], subs);
      }
    case _ =>
  }

  /** With no substitution, `substitute_in_dict` returns an equal tree. */
  lemma {:induction false} SubstituteInDictEmpty(v: Value)
    ensures SubstituteInDict(v, []) == v
    decreases v
  {
    match v
    case Dict(es) =>
      forall i | 0 <= i < |es|
        ensures SubstituteInDict(es[i].val, []) == es[i].val
      {
        SubstituteInDictEmpty(es[i].val);
      }
      assert SubstituteInDict(v, []).entries == es;
    case List(items) =>
      forall i | 0 <= i < |items|
        ensures SubstituteInDict(items[i], []) == items[i]
      {
        SubstituteInDictEmpty(items[i]);
      }
      assert SubstituteInDict(v, []).items == items;
    case _ =>
  }
}
