/**
 * The value tree that xml2js hands to the extractor (options explicitArray:false, trim:true), and the few
 * JavaScript operations the extractor performs on it: truthiness, optional-chaining property reads,
 * String(v) conversion, Array.prototype.join and String.prototype.trim.
 */
module JsValues {

  /** A parsed XML node: `undefined` (also stands for `null`), a text node, an element with named children
      (attributes under `$`, text under `_`), or the array xml2js builds for an element that repeats. */
  datatype JsVal = Undef | Str(s: string) | Obj(fields: map<string, JsVal>) | Arr(items: seq<JsVal>)

  /** JavaScript truthiness: `undefined` and the empty string are falsy; every object and array is truthy. */
  predicate Truthy(v: JsVal)
  {
    match v
    case Undef => false
    case Str(s) => s != ""
    case _ => true
  }

  /** The values the tree can hold that JavaScript treats as false: `undefined` and the empty string. */
  lemma FalsyValues(v: JsVal)
    ensures !Truthy(v) <==> v == Undef || v == Str("")
  {
  }

  /** `a || b` */
  function Or(a: JsVal, b: JsVal): (r: JsVal)
    ensures Truthy(b) ==> Truthy(r)
    ensures Truthy(a) ==> r == a
    ensures !Truthy(a) ==> r == b
  {
    if Truthy(a) then a else b
  }

  /** `v?.key` for the element names the extractor reads (none of them is `length`, numeric, or a member of
      Object.prototype): on `undefined` it short-circuits, on a string or array the name is no property. */
  function Prop(v: JsVal, key: string): (r: JsVal)
    ensures r != Undef ==> v.Obj? && key in v.fields && r == v.fields[key]
    ensures v.Obj? && key in v.fields ==> r == v.fields[key]
  {
    match v
    case Obj(m) => if key in m then m[key] else Undef
    case _ => Undef
  }

  /** `v?.[0]`: the first element of an array, the first character of a string, property "0" of an object. */
  function ElementZero(v: JsVal): JsVal
  {
    match v
    case Undef => Undef
    case Str(s) => if s == "" then Undef else Str([s[0]])
    case Obj(m) => if "0" in m then m["0"] else Undef
    case Arr(items) => if items == [] then Undef else items[0]
  }

  /** An optional-chaining path `v?.k1?.k2 ... ?.kn`: any missing segment yields `undefined`. */
  function Get(v: JsVal, path: seq<string>): (r: JsVal)
    ensures path != [] && !v.Obj? ==> r == Undef
    decreases |path|
  {
    if path == [] then v else Get(Prop(v, path[0]), path[1..])
  }

  /** A missing value stays missing however deep the path continues. */
  lemma {:induction false} GetUndef(path: seq<string>)
    ensures Get(Undef, path) == Undef
    decreases |path|
  {
    if path != [] {
      GetUndef(path[1..]);
    }
  }

  /** Looking up a path in two stages is looking it up at once. */
  lemma {:induction false} GetAppend(v: JsVal, p: seq<string>, q: seq<string>)
    ensures Get(v, p + q) == Get(Get(v, p), q)
    decreases |p|
  {
    if p != [] {
      assert (p + q)[0] == p[0];
      assert (p + q)[1..] == p[1..] + q;
      GetAppend(Prop(v, p[0]), p[1..], q);
    } else {
      assert p + q == q;
    }
  }

  /** Once a path reaches a value that is not an object, every longer path gives `undefined`. */
  lemma GetBelowLeaf(v: JsVal, p: seq<string>, q: seq<string>)
    requires !Get(v, p).Obj?
    requires q != []
    ensures Get(v, p + q) == Undef
  {
    GetAppend(v, p, q);
    GetUndef(q[1..]);
  }

  /** `parts.join(sep)` on strings: the first part, then the separator and the join of the rest. */
  function Join(sep: string, parts: seq<string>): (r: string)
    ensures parts == [] ==> r == ""
    ensures parts != [] ==> |r| >= |parts[0]| && r[..|parts[0]|] == parts[0]
    ensures |parts| >= 2 ==> |r| >= |parts[0]| + |sep| && r[|parts[0]|..|parts[0]| + |sep|] == sep
    decreases |parts|
  {
    if parts == [] then ""
    else if |parts| == 1 then parts[0]
    else parts[0] + sep + Join(sep, parts[1..])
  }

  /** Adding a part at the end adds the separator and that part: `[...parts, p].join(sep)`. */
  lemma {:induction false} JoinAppend(sep: string, parts: seq<string>, p: string)
    ensures Join(sep, parts + [p]) == if parts == [] then p else Join(sep, parts) + sep + p
    decreases |parts|
  {
    if |parts| >= 2 {
      var tail := parts[1..];
      assert (parts + [p])[1..] == tail + [p];
      JoinAppend(sep, tail, p);
      Regroup(parts[0], sep, Join(sep, tail), p);
    } else if |parts| == 1 {
      assert (parts + [p])[1..] == [p];
    }
  }

  /** Concatenation regrouped, for JoinAppend. */
  lemma Regroup(a: string, sep: string, b: string, p: string)
    ensures a + sep + (b + sep + p) == a + sep + b + sep + p
  {
  }

  /** The text JavaScript makes of a value in `a + b`, `parseInt(v)` or `join`: `String(v)`. An array prints
      as its elements joined by ",", with `undefined` elements printed as nothing. */
  function ToJsString(v: JsVal): (r: string)
    ensures v.Str? ==> r == v.s
    ensures Truthy(v) && XmlShaped(v) ==> r != ""
    decreases v
  {
    match v
    case Undef => "undefined"
    case Str(s) => s
    case Obj(_) => "[object Object]"
    case Arr(items) => ArrayText(items)
  }

  /** The shape xml2js gives a value with `explicitArray: false`: an array only for an element that
      occurs at least twice. */
  predicate XmlShaped(v: JsVal)
  {
    !v.Arr? || |v.items| >= 2
  }

  /** `items.join(",")` inside `String(v)`: `undefined` elements print as nothing. */
  function ArrayText(items: seq<JsVal>): string
    decreases items
  {
    if items == [] then ""
    else
      var first := if items[0].Undef? then "" else ToJsString(items[0]);
      if |items| == 1 then first else first + "," + ArrayText(items[1..])
  }

  /** `values.filter(Boolean)` */
  function FilterTruthy(values: seq<JsVal>): (r: seq<JsVal>)
    ensures |r| <= |values|
    ensures forall i :: 0 <= i < |r| ==> Truthy(r[i]) && r[i] in values
    ensures forall i :: 0 <= i < |values| && Truthy(values[i]) ==> values[i] in r
    ensures r == [] <==> forall i :: 0 <= i < |values| ==> !Truthy(values[i])
    decreases |values|
  {
    if values == [] then []
    else if Truthy(values[0]) then [values[0]] + FilterTruthy(values[1..])
    else FilterTruthy(values[1..])
  }

  /** Filtering keeps the order of the values: filtering a concatenation concatenates the filtered parts. */
  lemma {:induction false} FilterTruthyAppend(a: seq<JsVal>, b: seq<JsVal>)
    ensures FilterTruthy(a + b) == FilterTruthy(a) + FilterTruthy(b)
    decreases |a|
  {
    if a == [] {
      assert a + b == b;
    } else {
      assert (a + b)[0] == a[0];
      assert (a + b)[1..] == a[1..] + b;
      FilterTruthyAppend(a[1..], b);
    }
  }

  /** `values.map(String)` */
  function Strings(values: seq<JsVal>): (r: seq<string>)
    ensures |r| == |values|
    ensures forall i :: 0 <= i < |values| ==> r[i] == ToJsString(values[i])
    decreases |values|
  {
    if values == [] then [] else [ToJsString(values[0])] + Strings(values[1..])
  }

  /** The characters String.prototype.trim and parseInt treat as blank: WhiteSpace and LineTerminator of
      section 12.2 and 12.3 of ECMA-262 (space separators of Unicode category Zs included). */
  predicate IsJsSpace(c: char)
  {
    c == '\t' || c == '\U{0B}' || c == '\U{0C}' || c == ' ' || c == '\U{A0}' || c == '\U{FEFF}'
    || c == '\U{1680}' || ('\U{2000}' <= c <= '\U{200A}') || c == '\U{202F}' || c == '\U{205F}'
    || c == '\U{3000}' || c == '\n' || c == '\r' || c == '\U{2028}' || c == '\U{2029}'
  }

  /** The end of the run of blanks in `s` that starts at `k`. */
  function BlankRunEnd(s: string, k: nat): (n: nat)
    requires k <= |s|
    ensures k <= n <= |s|
    ensures forall i :: k <= i < n ==> IsJsSpace(s[i])
    ensures n == |s| || !IsJsSpace(s[n])
    decreases |s| - k
  {
    if k < |s| && IsJsSpace(s[k]) then BlankRunEnd(s, k + 1) else k
  }

  /** The start of the run of blanks in `s` that ends at `k`, not reaching below `lo`. */
  function BlankRunStart(s: string, lo: nat, k: nat): (n: nat)
    requires lo <= k <= |s|
    ensures lo <= n <= k
    ensures forall i :: n <= i < k ==> IsJsSpace(s[i])
    ensures n == lo || !IsJsSpace(s[n - 1])
    decreases k
  {
    if lo < k && IsJsSpace(s[k - 1]) then BlankRunStart(s, lo, k - 1) else k
  }

  /** `s.trimStart()`: the suffix of `s` left after its leading blanks. */
  function TrimStart(s: string): (r: string)
    ensures |r| <= |s| && r == s[|s| - |r|..]
    ensures forall i :: 0 <= i < |s| - |r| ==> IsJsSpace(s[i])
    ensures r == [] || !IsJsSpace(r[0])
    decreases |s|
  {
    if s != [] && IsJsSpace(s[0]) then TrimStart(s[1..]) else s
  }

  /** `s.trim()`: the slice of `s` between its leading and its trailing blanks. */
  function Trim(s: string): (r: string)
    ensures r == [] || (!IsJsSpace(r[0]) && !IsJsSpace(r[|r| - 1]))
    ensures var a := BlankRunEnd(s, 0);
            && a + |r| <= |s| && r == s[a..a + |r|]
            && (forall i :: 0 <= i < a ==> IsJsSpace(s[i]))
            && (forall i :: a + |r| <= i < |s| ==> IsJsSpace(s[i]))
  {
    var a := BlankRunEnd(s, 0);
    s[a..BlankRunStart(s, a, |s|)]
  }

  /** `s.trim()` is empty exactly when `s` is blank throughout. */
  lemma TrimEmptyIff(s: string)
    ensures Trim(s) == "" <==> forall i :: 0 <= i < |s| ==> IsJsSpace(s[i])
  {
  }

  /** The join of non-empty parts is empty exactly when there are no parts. */
  lemma {:induction false} JoinEmptyIff(sep: string, parts: seq<string>)
    requires forall i :: 0 <= i < |parts| ==> parts[i] != ""
    ensures Join(sep, parts) == "" <==> parts == []
    decreases |parts|
  {
    if |parts| > 1 {
      JoinEmptyIff(sep, parts[1..]);
      assert |Join(sep, parts)| >= |parts[0]|;
    }
  }

  /** `s.endsWith(suffix)` */
  predicate EndsWith(s: string, suffix: string)
  {
    |suffix| <= |s| && s[|s| - |suffix|..] == suffix
  }
}
