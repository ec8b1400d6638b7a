/** `normalize_name`: turns any string into a name safe for identifiers and
    file names. Every run of characters outside ASCII letters, digits and `_`
    becomes one `_`, underscores are stripped from both ends, the result is
    lower-cased, and an empty result becomes `unnamed`. */
module NameNormalizer {
  import opened Strings

  /** The characters the pattern `[^a-zA-Z0-9_]` does not match. */
  predicate IsNameChar(c: char)
  {
    'a' <= c <= 'z' || 'A' <= c <= 'Z' || '0' <= c <= '9' || c == '_'
  }

  /** The characters a normalized name is made of. */
  predicate IsSafeChar(c: char)
  {
    'a' <= c <= 'z' || '0' <= c <= '9' || c == '_'
  }

  predicate AllNameChars(s: string)
  {
    forall i :: 0 <= i < |s| ==> IsNameChar(s[i])
  }

  /** A string `normalize_name` can return: non-empty, made of safe characters,
      neither starting nor ending with `_`. */
  predicate IsNormalName(s: string)
  {
    && s != []
    && (forall i :: 0 <= i < |s| ==> IsSafeChar(s[i]))
    && s[0] != '_'
    && s[|s| - 1] != '_'
  }

  /** Drops the run of disallowed characters at the front of `s`. */
  function SkipRun(s: string): (r: string)
    ensures |r| <= |s|
    ensures r == [] || IsNameChar(r[0])
  {
    if s == [] || IsNameChar(s[0]) then s else SkipRun(s[1..])
  }

  /** The regular-expression substitution: scanning left to right, each
      maximal run of disallowed characters is replaced by one `_`. */
  function Substitute(s: string): (r: string)
    ensures AllNameChars(r)
    decreases |s|
  {
    if s == [] then []
    else if IsNameChar(s[0]) then [s[0]] + Substitute(s[1..])
    else "_" + Substitute(SkipRun(s[1..]))
  }

  /** `s.lstrip("_")`. */
  function StripLeading(s: string): (r: string)
    ensures |r| <= |s| && r == s[|s| - |r|..]
    ensures r == [] || r[0] != '_'
    ensures AllUnderscores(s[..|s| - |r|])
  {
    if s != [] && s[0] == '_' then
      var r := StripLeading(s[1..]);
      LeadingStep(s, r);
      r
    else
      s
  }

  /** `s.rstrip("_")`. */
  function StripTrailing(s: string): (r: string)
    ensures |r| <= |s| && r == s[..|r|]
    ensures r == [] || r[|r| - 1] != '_'
    ensures AllUnderscores(s[|r|..])
  {
    if s != [] && s[|s| - 1] == '_' then
      var r := StripTrailing(s[..|s| - 1]);
      TrailingStep(s, r);
      r
    else
      s
  }

  /** `s.strip("_")`. */
  function Strip(s: string): string
  {
    StripTrailing(StripLeading(s))
  }

  predicate AllUnderscores(u: string)
  {
    forall i :: 0 <= i < |u| ==> u[i] == '_'
  }

  /** One more `_` in front of what `lstrip` removed from the rest. */
  lemma LeadingStep(s: string, r: string)
    requires s != [] && s[0] == '_'
    requires |r| <= |s| - 1 && r == s[1..][|s| - 1 - |r|..] && AllUnderscores(s[1..][..|s| - 1 - |r|])
    ensures r == s[|s| - |r|..] && AllUnderscores(s[..|s| - |r|])
  {
    var k := |s| - |r|;
    forall i | 0 <= i < k ensures s[..k][i] == '_' {
      if i > 0 {
        assert s[..k][i] == s[1..][..k - 1][i - 1];
      }
    }
  }

  /** One more `_` behind what `rstrip` removed from the rest. */
  lemma TrailingStep(s: string, r: string)
    requires s != [] && s[|s| - 1] == '_'
    requires |r| <= |s| - 1 && r == s[..|s| - 1][..|r|] && AllUnderscores(s[..|s| - 1][|r|..])
    ensures r == s[..|r|] && AllUnderscores(s[|r|..])
  {
    forall i | 0 <= i < |s| - |r| ensures s[|r|..][i] == '_' {
      if i < |s| - 1 - |r| {
        assert s[|r|..][i] == s[..|s| - 1][|r|..][i];
      }
    }
  }

  /** Stripping removes underscores and nothing else: the result is the slice
      of the input between a run of `_` at the front and a run of `_` at the
      back. */
  lemma {:induction false} StripRemovesUnderscores(s: string)
    ensures Leading(s) + |Strip(s)| <= |s|
    ensures Strip(s) == s[Leading(s)..Leading(s) + |Strip(s)|]
    ensures AllUnderscores(s[..Leading(s)])
    ensures AllUnderscores(s[Leading(s) + |Strip(s)|..])
  {
    StripIsMiddle(s);
    StripRemovesTrailingRun(s);
  }

  /** How many `_` `lstrip` removes from the front of `s`. */
  function Leading(s: string): nat
  {
    |s| - |StripLeading(s)|
  }

  lemma {:induction false} StripIsMiddle(s: string)
    ensures Leading(s) + |Strip(s)| <= |s|
    ensures Strip(s) == s[Leading(s)..Leading(s) + |Strip(s)|]
  {
    var t := StripLeading(s);
    assert t[..|Strip(s)|] == s[Leading(s)..Leading(s) + |Strip(s)|];
  }

  lemma {:induction false} StripRemovesTrailingRun(s: string)
    ensures Leading(s) + |Strip(s)| <= |s|
    ensures AllUnderscores(s[Leading(s) + |Strip(s)|..])
  {
    var t := StripLeading(s);
    assert t[|Strip(s)|..] == s[Leading(s) + |Strip(s)|..];
  }

  /** Stripping keeps the allowed characters allowed and leaves no `_` at
      either end, so no more could be removed. */
  lemma {:induction false} StripSpec(s: string)
    ensures AllNameChars(s) ==> AllNameChars(Strip(s))
    ensures Strip(s) == [] || (Strip(s)[0] != '_' && Strip(s)[|Strip(s)| - 1] != '_')
  {
    StrippedShape(s, StripLeading(s), Strip(s));
  }

  /** The shape facts of `StripSpec`, for any suffix `t` of `s` that does not
      start with `_` and any prefix `r` of `t` that does not end with it. */
  lemma StrippedShape(s: string, t: string, r: string)
    requires |t| <= |s| && t == s[|s| - |t|..] && (t == [] || t[0] != '_')
    requires |r| <= |t| && r == t[..|r|] && (r == [] || r[|r| - 1] != '_')
    ensures AllNameChars(s) ==> AllNameChars(r)
    ensures r == [] || (r[0] != '_' && r[|r| - 1] != '_')
  {
    NameCharsSuffix(s, |s| - |t|);
    NameCharsPrefix(t, |r|);
    if r != [] {
      assert r[0] == t[0];
    }
  }

  lemma NameCharsSuffix(s: string, a: nat)
    requires a <= |s|
    ensures AllNameChars(s) ==> AllNameChars(s[a..])
  {
    if AllNameChars(s) {
      forall k | 0 <= k < |s| - a ensures IsNameChar(s[a..][k]) {
        assert s[a..][k] == s[a + k];
      }
    }
  }

  lemma NameCharsPrefix(s: string, b: nat)
    requires b <= |s|
    ensures AllNameChars(s) ==> AllNameChars(s[..b])
  {
    if AllNameChars(s) {
      forall k | 0 <= k < b ensures IsNameChar(s[..b][k]) {
        assert s[..b][k] == s[k];
      }
    }
  }

  function NormalizeName(s: string): (r: string)
    ensures IsNormalName(r)
    ensures s == "" ==> r == "unnamed"
  {
    var stripped := Strip(Substitute(s));
    var t := Lower(stripped);
    StripSpec(Substitute(s));
    LowerKeepsShape(stripped);
    if t == [] then "unnamed" else t
  }

  /** Lower-casing allowed characters leaves only safe ones, and keeps `_`
      where it was. */
  lemma LowerKeepsShape(s: string)
    requires AllNameChars(s)
    requires s == [] || (s[0] != '_' && s[|s| - 1] != '_')
    ensures Lower(s) == [] || IsNormalName(Lower(s))
  {
    var t := Lower(s);
    forall k | 0 <= k < |t| ensures IsSafeChar(t[k]) {
      assert IsNameChar(s[k]);
    }
  }

  lemma {:induction false} SubstituteKeepsNames(s: string)
    requires AllNameChars(s)
    ensures Substitute(s) == s
    decreases |s|
  {
    if s != [] {
      SubstituteKeepsNames(s[1..]);
      assert [s[0]] + s[1..] == s;
    }
  }

  /** A stretch of allowed characters passes through unchanged. */
  lemma {:induction false} SubstituteNamePrefix(w: string, rest: string)
    requires AllNameChars(w)
    ensures Substitute(w + rest) == w + Substitute(rest)
    decreases |w|
  {
    if w != [] {
      SubstituteNamePrefix(w[1..], rest);
      assert IsNameChar(w[0]);
      assert (w + rest)[0] == w[0];
      assert (w + rest)[1..] == w[1..] + rest;
      calc {
        Substitute(w + rest);
        [w[0]] + Substitute(w[1..] + rest);
        [w[0]] + (w[1..] + Substitute(rest));
        { assert [w[0]] + w[1..] == w; }
        w + Substitute(rest);
      }
    } else {
      assert w + rest == rest;
    }
  }

  /** A maximal run of disallowed characters becomes exactly one `_`. */
  lemma {:induction false} SubstituteCollapsesRun(run: string, rest: string)
    requires run != []
    requires forall i :: 0 <= i < |run| ==> !IsNameChar(run[i])
    requires rest == [] || IsNameChar(rest[0])
    ensures Substitute(run + rest) == "_" + Substitute(rest)
  {
    var s := run + rest;
    SkipRunDropsRun(run[1..], rest);
    assert s[1..] == run[1..] + rest;
  }

  lemma {:induction false} SkipRunDropsRun(run: string, rest: string)
    requires forall i :: 0 <= i < |run| ==> !IsNameChar(run[i])
    requires rest == [] || IsNameChar(rest[0])
    ensures SkipRun(run + rest) == rest
    decreases |run|
  {
    if run == [] {
      assert run + rest == rest;
    } else {
      SkipRunDropsRun(run[1..], rest);
      var s := run + rest;
      assert s[0] == run[0] && !IsNameChar(s[0]);
      assert s[1..] == run[1..] + rest;
    }
  }

  /** The normalized names are exactly the fixed points of `NormalizeName`;
      in particular normalizing twice is the same as normalizing once. */
  lemma NormalizeFixedPoints(s: string)
    ensures NormalizeName(s) == s <==> IsNormalName(s)
  {
    if IsNormalName(s) {
      assert AllNameChars(s);
      SubstituteKeepsNames(s);
      assert StripLeading(s) == s;
      assert StripTrailing(s) == s;
      assert Lower(s) == s;
    }
  }

  lemma NormalizeIdempotent(s: string)
    ensures NormalizeName(NormalizeName(s)) == NormalizeName(s)
  {
    NormalizeFixedPoints(NormalizeName(s));
  }

  lemma NormalizeExamples()
    ensures NormalizeName("") == "unnamed"
    ensures NormalizeName("Order Items!!") == "order_items"
    ensures NormalizeName("__Revenue__") == "revenue"
  {
    OrderItemsExample();
    RevenueExample();
  }

  lemma OrderItemsExample()
    ensures NormalizeName("Order Items!!") == "order_items"
  {
    OrderItemsSubstituted();
    OrderItemsStripped();
    LowerOrderItems();
  }

  lemma OrderItemsSubstituted()
    ensures Substitute("Order Items!!") == "Order_Items_"
  {
    OrderItemsPieces();
    WordsAndRuns("Order", " ", "Items", "!!");
  }

  lemma OrderItemsPieces()
    ensures AllNameChars("Order") && AllNameChars("Items")
    ensures "Order" + " " + "Items" + "!!" == "Order Items!!"
    ensures "Order" + "_" + "Items" + "_" == "Order_Items_"
  {
  }

  /** Two words, each followed by a run of disallowed characters. */
  lemma WordsAndRuns(w1: string, run1: string, w2: string, run2: string)
    requires AllNameChars(w1) && AllNameChars(w2) && w2 != []
    requires run1 != [] && forall i :: 0 <= i < |run1| ==> !IsNameChar(run1[i])
    requires run2 != [] && forall i :: 0 <= i < |run2| ==> !IsNameChar(run2[i])
    ensures Substitute(w1 + run1 + w2 + run2) == w1 + "_" + w2 + "_"
  {
    SubstituteCollapsesRun(run2, []);
    assert run2 + [] == run2 && Substitute([]) == [];
    assert Substitute(run2) == "_";
    SubstituteNamePrefix(w2, run2);
    assert (w2 + run2)[0] == w2[0];
    SubstituteCollapsesRun(run1, w2 + run2);
    SubstituteNamePrefix(w1, run1 + (w2 + run2));
    Nest(w1, run1, w2, run2);
    Nest(w1, "_", w2, "_");
  }

  lemma Nest(a: string, b: string, c: string, d: string)
    ensures a + b + c + d == a + (b + (c + d))
  {
  }

  lemma OrderItemsStripped()
    ensures Strip("Order_Items_") == "Order_Items"
  {
    assert StripLeading("Order_Items_") == "Order_Items_";
    assert "Order_Items_"[..11] == "Order_Items";
    assert StripTrailing("Order_Items") == "Order_Items";
  }

  lemma LowerOrderItems()
    ensures Lower("Order_Items") == "order_items"
  {
  }

  lemma RevenueExample()
    ensures NormalizeName("__Revenue__") == "revenue"
  {
    RevenueSubstituted();
    RevenueStripped();
    LowerRevenue();
  }

  lemma RevenueSubstituted()
    ensures Substitute("__Revenue__") == "__Revenue__"
  {
    assert AllNameChars("__Revenue__");
    SubstituteKeepsNames("__Revenue__");
  }

  lemma RevenueStripped()
    ensures Strip("__Revenue__") == "Revenue"
  {
    RevenuePieces();
    StripDoubleUnderscores("Revenue");
  }

  lemma RevenuePieces()
    ensures "__" + "Revenue" + "__" == "__Revenue__"
    ensures "Revenue"[0] != '_' && "Revenue"[6] != '_'
  {
  }

  /** Two underscores on each side of a word are all `strip("_")` removes. */
  lemma StripDoubleUnderscores(w: string)
    requires w != [] && w[0] != '_' && w[|w| - 1] != '_'
    ensures Strip("__" + w + "__") == w
  {
    var s := "__" + w + "__";
    assert s[0] == '_' && s[1..][0] == '_';
    assert s[1..][1..] == w + "__";
    var t := w + "__";
    assert StripLeading(t) == t;
    assert StripLeading(s) == t;
    assert t[|t| - 1] == '_' && t[..|t| - 1] == w + "_";
    var u := w + "_";
    assert u[|u| - 1] == '_' && u[..|u| - 1] == w;
    assert StripTrailing(w) == w;
    assert StripTrailing(t) == w;
  }

  lemma LowerRevenue()
    ensures Lower("Revenue") == "revenue"
  {
  }
}
