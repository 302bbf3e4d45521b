/** The query component a request's path accumulates (section 3.4 of RFC 3986): `?` before the
    first parameter, `&` before each later one, `key=value` pairs whose values are joined by `,`.
    Keys and values are concatenated raw, with no percent-encoding. */
module QueryStrings {

  /** One `addParameter` call: a key and its values, in argument order. */
  datatype Param = Param(key: string, values: seq<string>)

  /** The values separated by `sep`, in order, with no leading or trailing separator. */
  function Join(vs: seq<string>, sep: char): string
    decreases |vs|
  {
    if |vs| == 0 then ""
    else if |vs| == 1 then vs[0]
    else Join(vs[..|vs| - 1], sep) + [sep] + vs[|vs| - 1]
  }

  /** Cuts a string at every `sep`; the reading Join is checked against. */
  function Split(s: string, sep: char): (parts: seq<string>)
    ensures |parts| >= 1
    decreases |s|
  {
    if s == [] then [""]
    else
      var rest := Split(s[1..], sep);
      if s[0] == sep then [""] + rest else [[s[0]] + rest[0]] + rest[1..]
  }

  /** The separator `addParameter` writes when `count` parameters are already present. */
  function Separator(count: int): string {
    if count == 0 then "?" else "&"
  }

  /** `key=v1,v2,...`. */
  function Render(p: Param): string {
    p.key + "=" + Join(p.values, ',')
  }

  /** The text that appending the parameters `ps`, in order, adds to a path. */
  function Query(ps: seq<Param>): string
    decreases |ps|
  {
    if ps == [] then ""
    else Query(ps[..|ps| - 1]) + Separator(|ps| - 1) + Render(ps[|ps| - 1])
  }

  function Renders(ps: seq<Param>): (rs: seq<string>)
    ensures |rs| == |ps|
    decreases |ps|
  {
    if ps == [] then [] else Renders(ps[..|ps| - 1]) + [Render(ps[|ps| - 1])]
  }

  /** The key of a `key=value` piece: everything before its first `=`. */
  function KeyOf(piece: string): (k: string)
    ensures |k| <= |piece|
    decreases |piece|
  {
    if piece == [] || piece[0] == '=' then "" else [piece[0]] + KeyOf(piece[1..])
  }

  /** Reads one `key=v1,v2` piece back as a parameter. */
  function ParseParam(piece: string): Param {
    var k := KeyOf(piece);
    Param(k, Split(if |k| < |piece| then piece[|k| + 1..] else "", ','))
  }

  function ParsePieces(pieces: seq<string>): (ps: seq<Param>)
    ensures |ps| == |pieces|
    decreases |pieces|
  {
    if pieces == [] then []
    else ParsePieces(pieces[..|pieces| - 1]) + [ParseParam(pieces[|pieces| - 1])]
  }

  /** Reads a query component back into its parameters; the partner of Query. */
  function ParseQuery(q: string): seq<Param> {
    if q == [] then [] else ParsePieces(Split(q[1..], '&'))
  }

  /** The parameters a raw concatenation can carry without ambiguity: keys free of `=` and `&`,
      at least one value each, values free of `,` and `&`. */
  predicate Unambiguous(ps: seq<Param>) {
    forall i :: 0 <= i < |ps| ==>
      && '=' !in ps[i].key && '&' !in ps[i].key
      && |ps[i].values| >= 1
      && forall j :: 0 <= j < |ps[i].values| ==> ',' !in ps[i].values[j] && '&' !in ps[i].values[j]
  }

  lemma JoinSnoc(vs: seq<string>, v: string, sep: char)
    requires |vs| >= 1
    ensures Join(vs + [v], sep) == Join(vs, sep) + [sep] + v
  {
    assert (vs + [v])[..|vs|] == vs;
  }

  lemma {:induction false} SplitWithoutSeparator(v: string, sep: char)
    requires sep !in v
    ensures Split(v, sep) == [v]
    decreases |v|
  {
    if v != [] {
      SplitWithoutSeparator(v[1..], sep);
      assert [v[0]] + v[1..] == v;
    }
  }

  lemma {:induction false} SplitAppend(a: string, v: string, sep: char)
    requires sep !in v
    ensures Split(a + [sep] + v, sep) == Split(a, sep) + [v]
    decreases |a|
  {
    if a == [] {
      assert a + [sep] + v == [sep] + v;
      assert ([sep] + v)[1..] == v;
      SplitWithoutSeparator(v, sep);
    } else {
      assert (a + [sep] + v)[1..] == a[1..] + [sep] + v;
      SplitAppend(a[1..], v, sep);
    }
  }

  /** Joining values that do not contain the separator, then cutting at it, gives the values back. */
  lemma {:induction false} SplitJoin(vs: seq<string>, sep: char)
    requires |vs| >= 1
    requires forall j :: 0 <= j < |vs| ==> sep !in vs[j]
    ensures Split(Join(vs, sep), sep) == vs
    decreases |vs|
  {
    if |vs| == 1 {
      SplitWithoutSeparator(vs[0], sep);
    } else {
      var init := vs[..|vs| - 1];
      SplitJoin(init, sep);
      SplitAppend(Join(init, sep), vs[|vs| - 1], sep);
      assert init + [vs[|vs| - 1]] == vs;
    }
  }

  lemma {:induction false} JoinAvoids(vs: seq<string>, sep: char, c: char)
    requires c != sep
    requires forall j :: 0 <= j < |vs| ==> c !in vs[j]
    ensures c !in Join(vs, sep)
    decreases |vs|
  {
    if |vs| > 1 {
      JoinAvoids(vs[..|vs| - 1], sep, c);
    }
  }

  lemma {:induction false} KeyOfPiece(k: string, rest: string)
    requires '=' !in k
    ensures KeyOf(k + "=" + rest) == k
    decreases |k|
  {
    if k != [] {
      assert (k + "=" + rest)[1..] == k[1..] + "=" + rest;
      KeyOfPiece(k[1..], rest);
    }
  }

  lemma ParseParamRender(p: Param)
    requires '=' !in p.key && |p.values| >= 1
    requires forall j :: 0 <= j < |p.values| ==> ',' !in p.values[j]
    ensures ParseParam(Render(p)) == p
  {
    var joined := Join(p.values, ',');
    KeyOfPiece(p.key, joined);
    assert Render(p)[|p.key| + 1..] == joined;
    SplitJoin(p.values, ',');
  }

  lemma Associative(a: string, b: string, c: string)
    ensures a + b + c == a + (b + c)
  {
  }

  /** Regrouping a parameter written after a `?` or `&` as one literal prefix. */
  lemma KeyPrefix(sep: string, key: string, prefix: string, x: string)
    requires prefix == sep + key + "="
    ensures sep + (key + "=" + x) == prefix + x
  {
    Associative(sep, key + "=", x);
    Associative(sep, key, "=");
  }

  /** A non-empty query is `?` followed by the rendered parameters joined by `&`. */
  lemma {:induction false} QueryIsJoin(ps: seq<Param>)
    requires ps != []
    ensures Query(ps) == "?" + Join(Renders(ps), '&')
    decreases |ps|
  {
    var init := ps[..|ps| - 1];
    var last := Render(ps[|ps| - 1]);
    var rs := Renders(ps);
    assert rs[|rs| - 1] == last;
    if |ps| > 1 {
      QueryIsJoin(init);
      assert rs[..|rs| - 1] == Renders(init);
      var joined := Join(Renders(init), '&');
      assert Join(rs, '&') == joined + ['&'] + last;
      assert Query(ps) == "?" + joined + "&" + last;
      Associative("?" + joined, "&", last);
      Associative("?", joined, "&" + last);
      Associative(joined, ['&'], last);
    } else {
      assert Query(ps) == "" + "?" + last;
    }
  }

  lemma {:induction false} ParsePiecesRenders(ps: seq<Param>)
    requires Unambiguous(ps)
    ensures ParsePieces(Renders(ps)) == ps
    decreases |ps|
  {
    if ps != [] {
      var init := ps[..|ps| - 1];
      assert Unambiguous(init);
      ParsePiecesRenders(init);
      assert Renders(ps)[..|ps| - 1] == Renders(init);
      ParseParamRender(ps[|ps| - 1]);
      assert init + [ps[|ps| - 1]] == ps;
    }
  }

  /** The query string determines its parameters, as long as no key or value contains one of the
      delimiters the builder writes raw. */
  lemma QueryRoundTrip(ps: seq<Param>)
    requires Unambiguous(ps)
    ensures ParseQuery(Query(ps)) == ps
  {
    if ps != [] {
      QueryIsJoin(ps);
      var rs := Renders(ps);
      forall j | 0 <= j < |rs|
        ensures '&' !in rs[j]
      {
        RenderedAt(ps, j);
        JoinAvoids(ps[j].values, ',', '&');
      }
      SplitJoin(rs, '&');
      assert ("?" + Join(rs, '&'))[1..] == Join(rs, '&');
      ParsePiecesRenders(ps);
    }
  }

  lemma {:induction false} RenderedAt(ps: seq<Param>, j: int)
    requires 0 <= j < |ps|
    ensures Renders(ps)[j] == Render(ps[j])
    decreases |ps|
  {
    if j < |ps| - 1 {
      RenderedAt(ps[..|ps| - 1], j);
    }
  }

  /** Without percent-encoding a value holding `&` and `=` reads as two parameters: two different
      parameter lists produce the same query string. */
  lemma RawValuesAreAmbiguous()
    ensures Query([Param("prefix", ["A&B=C"])]) == Query([Param("prefix", ["A"]), Param("B", ["C"])])
  {
    var two := [Param("prefix", ["A"]), Param("B", ["C"])];
    assert two[..1] == [Param("prefix", ["A"])];
  }
}
