/**
  The mention sanitiser applied to every model reply in the chat channel:
  a guarded chain of three `str.replace` calls that puts a `|` after the
  `@` of `@everyone` and `@here` and after every `<@`.
 */
module Sanitizer {
  import opened Text

  const BAR := '|'
  const EVERYONE := "@everyone"
  const HERE := "@here"
  const MENTION_OPEN := "<@"

  /** The guard: Python reads `a or b or c and d` as `a or b or (c and d)`. */
  predicate NeedsRewrite(r: string) {
    || Contains(r, EVERYONE)
    || Contains(r, HERE)
    || (Contains(r, MENTION_OPEN) && Contains(r, ">"))
  }

  /** The three replacements, in the order the source applies them. */
  function Rewrite(r: string): string {
    Replace(Replace(Replace(r, EVERYONE, "@|everyone"), HERE, "@|here"), MENTION_OPEN, "<@|")
  }

  function Sanitize(r: string): string {
    if NeedsRewrite(r) then Rewrite(r) else r
  }

  /** Every `<@` in o is immediately followed by a `|`. */
  predicate MentionsBroken(o: string) {
    forall i :: 0 <= i < |o| - 1 && o[i] == '<' && o[i + 1] == '@' ==> i + 2 < |o| && o[i + 2] == BAR
  }

  /**
    What reaches the channel: no `@everyone`, no `@here`, and a complete
    mention `<@…>` is impossible because either every `<@` is broken by a
    `|` or there is no `>` at all.
   */
  predicate Safe(o: string) {
    && !Contains(o, EVERYONE)
    && !Contains(o, HERE)
    && (MentionsBroken(o) || !Contains(o, ">"))
  }

  /** b is a with some `|` characters inserted and no other change. */
  predicate BarsInserted(a: string, b: string)
    decreases |b|
  {
    if |b| == 0 then |a| == 0
    else
      || (|a| > 0 && a[0] == b[0] && BarsInserted(a[1..], b[1..]))
      || (b[0] == BAR && BarsInserted(a, b[1..]))
  }

  // ---------------------------------------------------------------------
  // The properties of the sanitiser
  // ---------------------------------------------------------------------

  /** When the guard fires, no `@everyone` or `@here` survives. */
  lemma RewriteRemovesMassMentions(r: string)
    ensures !Contains(Rewrite(r), EVERYONE)
    ensures !Contains(Rewrite(r), HERE)
  {
    var r1 := Replace(r, EVERYONE, "@|everyone");
    var r2 := Replace(r1, HERE, "@|here");
    SplitPatterns();
    ReplaceRemoves(r, "@", "everyone");
    ReplaceRemoves(r1, "@", "here");
    ReplaceKeepsAbsent(r1, "@", "here", EVERYONE);
    ReplaceKeepsAbsent(r2, MENTION_OPEN, "", EVERYONE);
    ReplaceKeepsAbsent(r2, MENTION_OPEN, "", HERE);
  }

  /** When the guard fires, every `<@` of the result is followed by `|`. */
  lemma RewriteBreaksMentions(r: string)
    ensures MentionsBroken(Rewrite(r))
  {
    var r2 := Replace(Replace(r, EVERYONE, "@|everyone"), HERE, "@|here");
    ReplaceBreaksMentions(r2);
  }

  /** The rewrite only ever inserts `|` characters: r survives intact, in order. */
  lemma RewriteInsertsOnlyBars(r: string)
    ensures BarsInserted(r, Rewrite(r))
  {
    var r1 := Replace(r, EVERYONE, "@|everyone");
    var r2 := Replace(r1, HERE, "@|here");
    SplitPatterns();
    ReplaceInsertsBars(r, "@", "everyone");
    ReplaceInsertsBars(r1, "@", "here");
    ReplaceInsertsBars(r2, MENTION_OPEN, "");
    BarsInsertedTransitive(r, r1, r2);
    BarsInsertedTransitive(r, r2, Rewrite(r));
  }

  /** The sanitiser changes its input exactly when the guard fires. */
  lemma SanitizeChangesIffGuarded(r: string)
    ensures Sanitize(r) != r <==> NeedsRewrite(r)
  {
    if NeedsRewrite(r) && Rewrite(r) == r {
      var r1 := Replace(r, EVERYONE, "@|everyone");
      var r2 := Replace(r1, HERE, "@|here");
      var r3 := Rewrite(r);
      SplitPatterns();
      ReplaceInsertsBars(r, "@", "everyone");
      ReplaceInsertsBars(r1, "@", "here");
      ReplaceInsertsBars(r2, MENTION_OPEN, "");
      BarsInsertedLength(r, r1);
      BarsInsertedLength(r1, r2);
      BarsInsertedLength(r2, r3);
      assert r1 == r && r2 == r;
      if Contains(r, EVERYONE) {
        ReplaceGrows(r, "@", "everyone");
      } else if Contains(r, HERE) {
        ReplaceGrows(r, "@", "here");
      } else {
        ReplaceGrows(r, MENTION_OPEN, "");
      }
    }
  }

  /** Whatever the input, the sanitised text is safe to post. */
  lemma SanitizeIsSafe(r: string)
    ensures Safe(Sanitize(r))
  {
    if NeedsRewrite(r) {
      RewriteRemovesMassMentions(r);
      RewriteBreaksMentions(r);
    } else if !Contains(r, MENTION_OPEN) {
      forall i | 0 <= i < |r| - 1 && r[i] == '<' && r[i + 1] == '@'
        ensures false
      {
        assert r[i..i + 2] == MENTION_OPEN;
        assert OccursAt(r, MENTION_OPEN, i);
        ContainsIffOccurs(r, MENTION_OPEN);
      }
    }
  }

  /**
    An unclosed `<@` passes through untouched: with no `@everyone`, no
    `@here` and no `>` the guard does not fire.
   */
  lemma UnclosedMentionPassesThrough(r: string)
    requires !Contains(r, EVERYONE) && !Contains(r, HERE) && !Contains(r, ">")
    ensures Sanitize(r) == r
  {
  }

  /** A second pass breaks `<@|` into `<@||`: the sanitiser is not idempotent. */
  lemma SanitizeIsNotIdempotent()
    ensures Sanitize("<@1>") == "<@|1>"
    ensures Sanitize("<@|1>") == "<@||1>"
  {
    var s := "<@1>";
    ContainsLength(s, EVERYONE);
    ContainsLength(s, HERE);
    ReplaceShort(s, EVERYONE, "@|everyone");
    ReplaceShort(s, HERE, "@|here");
    assert Contains(s, MENTION_OPEN) by { assert s[..2] == MENTION_OPEN; }
    assert Contains(s, ">") by {
      assert s[3..][..1] == ">";
      assert s[1..][1..] == s[2..] && s[2..][1..] == s[3..];
    }
    assert Replace(s, MENTION_OPEN, "<@|") == "<@|1>" by {
      assert s[2..] == "1>";
      assert Replace("1>", MENTION_OPEN, "<@|") == "1>" by {
        ReplaceShort(">", MENTION_OPEN, "<@|");
      }
    }
    var t := "<@|1>";
    ContainsLength(t, EVERYONE);
    ContainsLength(t[1..], HERE);
    ReplaceShort(t, EVERYONE, "@|everyone");
    assert !StartsWith(t, HERE) by { assert t[0] != HERE[0]; }
    assert Replace(t, HERE, "@|here") == t by {
      ReplaceShort(t[1..], HERE, "@|here");
      assert t == [t[0]] + t[1..];
    }
    assert Contains(t, MENTION_OPEN) by { assert t[..2] == MENTION_OPEN; }
    assert Replace(t, MENTION_OPEN, "<@|") == "<@||1>" by {
      assert t[2..] == "|1>";
      assert !StartsWith("|1>", MENTION_OPEN) by { assert "|1>"[0] != '<'; }
      assert Replace("|1>", MENTION_OPEN, "<@|") == "|1>" by {
        assert "|1>"[1..] == "1>";
        assert !StartsWith("1>", MENTION_OPEN) by { assert "1>"[0] != '<'; }
        ReplaceShort(">", MENTION_OPEN, "<@|");
      }
    }
  }

  // ---------------------------------------------------------------------
  // Replacements of the shape u+v -> u+"|"+v
  // ---------------------------------------------------------------------

  lemma SplitPatterns()
    ensures EVERYONE == "@" + "everyone" && "@|everyone" == "@" + [BAR] + "everyone"
    ensures HERE == "@" + "here" && "@|here" == "@" + [BAR] + "here"
    ensures MENTION_OPEN == MENTION_OPEN + "" && "<@|" == MENTION_OPEN + [BAR] + ""
  {
  }

  /** A string without p's first character does not contain p. */
  lemma {:induction false} NoFirstCharNoMatch(s: string, p: string)
    requires |p| > 0 && p[0] !in s
    ensures !Contains(s, p)
    decreases |s|
  {
    if |s| > 0 {
      assert s[0] != p[0];
      NoFirstCharNoMatch(s[1..], p);
    }
  }

  /** A string shorter than p is left as it is by replacing p. */
  lemma {:induction false} ReplaceShort(s: string, p: string, q: string)
    requires 0 < |p| && |s| < |p|
    ensures Replace(s, p, q) == s
    decreases |s|
  {
    if |s| > 0 {
      ReplaceShort(s[1..], p, q);
      assert [s[0]] + s[1..] == s;
    }
  }

  lemma {:induction false} ContainsLength(s: string, p: string)
    ensures Contains(s, p) ==> |p| <= |s|
    decreases |s|
  {
    if |s| > 0 {
      ContainsLength(s[1..], p);
    }
  }

  lemma {:induction false} ContainsExtendRight(x: string, y: string, p: string)
    requires Contains(x, p)
    ensures Contains(x + y, p)
    decreases |x|
  {
    if StartsWith(x, p) {
      assert (x + y)[..|p|] == x[..|p|];
    } else {
      ContainsExtendRight(x[1..], y, p);
      assert (x + y)[1..] == x[1..] + y;
    }
  }

  lemma {:induction false} ContainsExtendLeft(x: string, y: string, p: string)
    requires Contains(y, p)
    ensures Contains(x + y, p)
    decreases |x|
  {
    if |x| > 0 {
      ContainsExtendLeft(x[1..], y, p);
      assert (x + y)[1..] == x[1..] + y;
    } else {
      assert x + y == y;
    }
  }

  /** An occurrence of a `|`-free pattern cannot straddle a `|`. */
  lemma {:induction false} ContainsAroundBar(x: string, y: string, p: string)
    requires |p| > 0 && BAR !in p
    requires Contains(x + [BAR] + y, p)
    ensures Contains(x, p) || Contains(y, p)
    decreases |x|
  {
    var s := x + [BAR] + y;
    if |x| == 0 {
      assert s == [BAR] + y && s[1..] == y;
      assert s[0] != p[0];
    } else if StartsWith(s, p) {
      assert s[|x|] == BAR;
      assert x[..|p|] == s[..|p|];
      assert StartsWith(x, p);
    } else {
      assert s[1..] == x[1..] + [BAR] + y;
      ContainsAroundBar(x[1..], y, p);
    }
  }

  /** Text ahead of p's first character passes through `Replace` unchanged. */
  lemma {:induction false} ReplacePassThrough(w: string, rest: string, p: string, q: string)
    requires |p| > 0 && p[0] !in w
    ensures Replace(w + rest, p, q) == w + Replace(rest, p, q)
    decreases |w|
  {
    if |w| == 0 {
      assert w + rest == rest;
    } else {
      var s := w + rest;
      assert s[0] == w[0] && s[0] != p[0];
      assert s[1..] == w[1..] + rest;
      ReplacePassThrough(w[1..], rest, p, q);
      assert [w[0]] + (w[1..] + Replace(rest, p, q)) == w + Replace(rest, p, q);
    }
  }

  /** A prefix of the result that holds no `|` was already a prefix of the input. */
  lemma {:induction false} StartsWithThrough(t: string, u: string, v: string, x: string)
    requires |u| > 0 && BAR !in x
    ensures StartsWith(Replace(t, u + v, u + [BAR] + v), x) ==> StartsWith(t, x)
    decreases |t|
  {
    var p, q := u + v, u + [BAR] + v;
    var r := Replace(t, p, q);
    if |t| == 0 {
    } else if StartsWith(t, p) {
      var rest := Replace(t[|p|..], p, q);
      assert r == q + rest;
      assert r[|u|] == BAR;
      if StartsWith(r, x) {
        assert x == r[..|x|] == u[..|x|];
        assert t[..|x|] == t[..|p|][..|x|] == p[..|x|] == u[..|x|];
      }
    } else if |x| > 0 {
      var rest := Replace(t[1..], p, q);
      assert r == [t[0]] + rest;
      StartsWithThrough(t[1..], u, v, x[1..]);
      if StartsWith(r, x) {
        assert rest[..|x| - 1] == r[..|x|][1..] == x[1..];
        assert t[..|x|] == [t[0]] + t[1..][..|x| - 1];
        assert x == [x[0]] + x[1..];
      }
    }
  }

  /** Replacing inserts no occurrence of a `|`-free pattern. */
  lemma {:induction false} ReplaceKeepsAbsent(s: string, u: string, v: string, x: string)
    requires |u| > 0 && u[0] !in v && |x| > 0 && BAR !in x
    ensures Contains(Replace(s, u + v, u + [BAR] + v), x) ==> Contains(s, x)
    decreases |s|
  {
    var p, q := u + v, u + [BAR] + v;
    var r := Replace(s, p, q);
    if Contains(r, x) {
      if |s| == 0 {
        ContainsLength(r, x);
      } else if StartsWith(s, p) {
        var tail := s[|p|..];
        assert s == u + (v + tail);
        assert r == u + [BAR] + (v + Replace(tail, p, q));
        ContainsAroundBar(u, v + Replace(tail, p, q), x);
        if Contains(u, x) {
          ContainsExtendRight(u, v + tail, x);
        } else {
          ReplacePassThrough(v, tail, p, q);
          assert s[|u|..] == v + tail;
          ReplaceKeepsAbsent(s[|u|..], u, v, x);
          ContainsExtendLeft(u, v + tail, x);
        }
      } else {
        var rest := Replace(s[1..], p, q);
        assert r == [s[0]] + rest;
        StartsWithThrough(s, u, v, x);
        if !StartsWith(r, x) {
          assert r[1..] == rest;
          ReplaceKeepsAbsent(s[1..], u, v, x);
        }
      }
    }
  }

  /** Replacing u+v by u+"|"+v leaves no u+v behind, when v is non-empty. */
  lemma {:induction false} ReplaceRemoves(s: string, u: string, v: string)
    requires |u| > 0 && |v| > 0 && u[0] !in v && BAR !in u + v
    ensures !Contains(Replace(s, u + v, u + [BAR] + v), u + v)
    decreases |s|
  {
    var p, q := u + v, u + [BAR] + v;
    var r := Replace(s, p, q);
    if |s| == 0 {
      assert r == [];
    } else if StartsWith(s, p) {
      var tail := s[|p|..];
      assert s[|u|..] == v + tail;
      assert r == u + [BAR] + (v + Replace(tail, p, q));
      ReplacePassThrough(v, tail, p, q);
      ReplaceRemoves(s[|u|..], u, v);
      ContainsLength(u, p);
      if Contains(r, p) {
        ContainsAroundBar(u, v + Replace(tail, p, q), p);
      }
    } else {
      var rest := Replace(s[1..], p, q);
      assert r == [s[0]] + rest && r[1..] == rest;
      ReplaceRemoves(s[1..], u, v);
      StartsWithThrough(s, u, v, p);
    }
  }

  /** After replacing `<@` by `<@|`, every `<@` is followed by `|`. */
  lemma {:induction false} ReplaceBreaksMentions(s: string)
    ensures MentionsBroken(Replace(s, MENTION_OPEN, "<@|"))
    decreases |s|
  {
    var r := Replace(s, MENTION_OPEN, "<@|");
    if |s| == 0 {
    } else if StartsWith(s, MENTION_OPEN) {
      var rest := Replace(s[2..], MENTION_OPEN, "<@|");
      assert r == "<@|" + rest;
      ReplaceBreaksMentions(s[2..]);
      forall i | 0 <= i < |r| - 1 && r[i] == '<' && r[i + 1] == '@'
        ensures i + 2 < |r| && r[i + 2] == BAR
      {
        if i >= 3 {
          assert rest[i - 3] == r[i] && rest[i - 2] == r[i + 1];
          assert r[i + 2] == rest[i - 1];
        }
      }
    } else {
      var rest := Replace(s[1..], MENTION_OPEN, "<@|");
      assert r == [s[0]] + rest;
      ReplaceBreaksMentions(s[1..]);
      SplitPatterns();
      StartsWithThrough(s[1..], MENTION_OPEN, "", "@");
      assert |r| > 1 && r[0] == '<' && r[1] == '@' ==> StartsWith(rest, "@") by {
        if |rest| > 0 { assert rest[..1] == [rest[0]]; }
      }
      assert |s| > 1 ==> s[..2] == [s[0]] + s[1..][..1];
      forall i | 1 <= i < |r| - 1 && r[i] == '<' && r[i + 1] == '@'
        ensures i + 2 < |r| && r[i + 2] == BAR
      {
        assert rest[i - 1] == r[i] && rest[i] == r[i + 1];
      }
    }
  }

  /** Each replacement only inserts bars. */
  lemma {:induction false} ReplaceInsertsBars(s: string, u: string, v: string)
    requires |u| > 0
    ensures BarsInserted(s, Replace(s, u + v, u + [BAR] + v))
    decreases |s|
  {
    var p, q := u + v, u + [BAR] + v;
    var r := Replace(s, p, q);
    if |s| == 0 {
    } else if StartsWith(s, p) {
      var tail := s[|p|..];
      ReplaceInsertsBars(tail, u, v);
      BarsInsertedReflexive(u);
      BarsInsertedReflexive(v);
      assert BarsInserted(v, [BAR] + v) by { assert ([BAR] + v)[1..] == v; }
      BarsInsertedConcat(u, u, v, [BAR] + v);
      assert u + ([BAR] + v) == q;
      BarsInsertedConcat(p, q, tail, Replace(tail, p, q));
      assert s == p + tail;
    } else {
      var rest := Replace(s[1..], p, q);
      ReplaceInsertsBars(s[1..], u, v);
      assert r == [s[0]] + rest && r[1..] == rest && r[0] == s[0];
    }
  }

  /** Replacing u+v by the one-longer u+"|"+v lengthens any text that contains u+v. */
  lemma {:induction false} ReplaceGrows(s: string, u: string, v: string)
    requires |u| > 0 && Contains(s, u + v)
    ensures |Replace(s, u + v, u + [BAR] + v)| > |s|
    decreases |s|
  {
    var p, q := u + v, u + [BAR] + v;
    if StartsWith(s, p) {
      var tail := s[|p|..];
      ReplaceInsertsBars(tail, u, v);
      BarsInsertedLength(tail, Replace(tail, p, q));
    } else {
      ContainsLength(s, p);
      ReplaceGrows(s[1..], u, v);
    }
  }

  // ---------------------------------------------------------------------
  // The bar-insertion relation
  // ---------------------------------------------------------------------

  lemma {:induction false} BarsInsertedReflexive(a: string)
    ensures BarsInserted(a, a)
    decreases |a|
  {
    if |a| > 0 {
      BarsInsertedReflexive(a[1..]);
    }
  }

  lemma {:induction false} BarsInsertedLength(a: string, b: string)
    requires BarsInserted(a, b)
    ensures |a| <= |b|
    ensures |a| == |b| ==> a == b
    decreases |b|
  {
    if |b| > 0 {
      if |a| > 0 && a[0] == b[0] && BarsInserted(a[1..], b[1..]) {
        BarsInsertedLength(a[1..], b[1..]);
        if |a| == |b| {
          assert a == [a[0]] + a[1..] && b == [b[0]] + b[1..];
        }
      } else {
        BarsInsertedLength(a, b[1..]);
      }
    }
  }

  lemma {:induction false} BarsInsertedConcat(a: string, b: string, c: string, d: string)
    requires BarsInserted(a, b) && BarsInserted(c, d)
    ensures BarsInserted(a + c, b + d)
    decreases |b|
  {
    if |b| == 0 {
      assert a + c == c && b + d == d;
    } else {
      assert (b + d)[0] == b[0] && (b + d)[1..] == b[1..] + d;
      if |a| > 0 && a[0] == b[0] && BarsInserted(a[1..], b[1..]) {
        BarsInsertedConcat(a[1..], b[1..], c, d);
        assert (a + c)[0] == a[0] && (a + c)[1..] == a[1..] + c;
      } else {
        BarsInsertedConcat(a, b[1..], c, d);
      }
    }
  }

  lemma {:induction false} BarsInsertedTransitive(a: string, b: string, c: string)
    requires BarsInserted(a, b) && BarsInserted(b, c)
    ensures BarsInserted(a, c)
    decreases |c|
  {
    if |c| == 0 {
      assert |b| == 0;
    } else if |b| > 0 && b[0] == c[0] && BarsInserted(b[1..], c[1..]) {
      if |a| > 0 && a[0] == b[0] && BarsInserted(a[1..], b[1..]) {
        BarsInsertedTransitive(a[1..], b[1..], c[1..]);
      } else {
        BarsInsertedTransitive(a, b[1..], c[1..]);
      }
    } else {
      BarsInsertedTransitive(a, b, c[1..]);
    }
  }
}
