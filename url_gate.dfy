/** The two URL allow-lists of the video routes: the hostname test of
    isYouTube, and the prefix pattern the clip routes apply to the raw URL. */
module UrlGate {
  import opened Wrappers
  import opened Text

  // ---------------------------------------------------------------- hostname test

  /** One alternative `(^|\.)name$` of the hostname pattern, tried at position
      k: either k is the start and the whole host is name, or a dot at k is
      followed by name up to the end. */
  predicate AnchoredAt(h: string, k: nat, name: string)
  {
    || (k == 0 && h == name)
    || (k < |h| && h[k] == '.' && h[k + 1..] == name)
  }

  /** /(^|\.)youtube\.com$|(^|\.)youtu\.be$/ tried at position k. */
  predicate HostMatchAt(h: string, k: nat)
  {
    AnchoredAt(h, k, "youtube.com") || AnchoredAt(h, k, "youtu.be")
  }

  /** RegExp.prototype.test: the pattern tried at k, k + 1, ..., |h|. */
  predicate HostSearchFrom(h: string, k: nat)
    decreases |h| - k
  {
    k <= |h| && (HostMatchAt(h, k) || HostSearchFrom(h, k + 1))
  }

  /** The hosts the pattern is meant to admit: the domain itself or any
      subdomain of it. */
  predicate UnderDomain(h: string, domain: string)
  {
    h == domain || EndsWith(h, "." + domain)
  }

  /** A dot at k followed by name to the end is the same as h ending in
      "." + name, with k where that suffix starts. */
  lemma DotAnchor(h: string, k: nat, name: string)
    ensures (k < |h| && h[k] == '.' && h[k + 1..] == name)
            <==> (k + |name| + 1 == |h| && EndsWith(h, "." + name))
  {
    if k < |h| {
      assert h[k..] == [h[k]] + h[k + 1..];
    }
  }

  /** One alternative admits k exactly when name is the whole host and k is
      0, or the host ends in "." + name and that suffix starts at k. */
  lemma AnchoredMeaning(h: string, k: nat, name: string)
    ensures AnchoredAt(h, k, name) <==>
              (k == 0 && h == name) || (k + |name| + 1 == |h| && EndsWith(h, "." + name))
  {
    DotAnchor(h, k, name);
  }

  /** Searching from k finds name exactly when name is the whole host and k is
      0, or the host ends in "." + name and that suffix starts at k or later. */
  lemma {:induction false} SearchFromMeaning(h: string, k: nat, a: string, b: string)
    requires k <= |h| && a == "youtube.com" && b == "youtu.be"
    ensures HostSearchFrom(h, k) <==>
              || (k == 0 && (h == a || h == b))
              || (k + |a| + 1 <= |h| && EndsWith(h, "." + a))
              || (k + |b| + 1 <= |h| && EndsWith(h, "." + b))
    decreases |h| - k
  {
    AnchoredMeaning(h, k, a);
    AnchoredMeaning(h, k, b);
    if k < |h| {
      SearchFromMeaning(h, k + 1, a, b);
    }
  }

  /** The hostname test of isYouTube; None stands for a URL that `new URL`
      cannot parse, for which the catch returns false. */
  function IsYouTube(host: Option<string>): (ok: bool)
    ensures ok <==> host.Some? && (UnderDomain(host.value, "youtube.com") || UnderDomain(host.value, "youtu.be"))
  {
    match host
    case None => false
    case Some(h) =>
      SearchFromMeaning(h, 0, "youtube.com", "youtu.be");
      HostSearchFrom(h, 0)
  }

  /** Every subdomain of either domain passes, however deep. */
  lemma SubdomainsAccepted(x: string)
    ensures IsYouTube(Some(x + "." + "youtube.com")) && IsYouTube(Some(x + "." + "youtu.be"))
  {
    SubdomainUnder(x, "youtube.com");
    SubdomainUnder(x, "youtu.be");
  }

  lemma SubdomainUnder(x: string, domain: string)
    ensures UnderDomain(x + "." + domain, domain)
  {
    var h := x + "." + domain;
    assert h[|h| - |"." + domain|..] == "." + domain;
  }

  /** The anchors keep look-alike domains out: a host that runs into
      youtube.com without a dot before it, such as evilyoutube.com, fails. */
  lemma LookAlikeRejected(x: string)
    requires x != [] && x[|x| - 1] != '.'
    ensures !IsYouTube(Some(x + "youtube.com"))
  {
    var h := x + "youtube.com";
    assert h[|x| - 1] == x[|x| - 1];
    assert h[|h| - 1] == 'm';
  }

  // ---------------------------------------------------------------- prefix pattern

  /** A piece of an anchored pattern: a literal, an optional literal, or a
      choice between two literals. */
  datatype Piece = Lit(text: string) | Opt(text: string) | Alt(left: string, right: string)

  /** t occurs in u at position i. */
  predicate At(u: string, i: nat, t: string)
  {
    i + |t| <= |u| && u[i..i + |t|] == t
  }

  /** Backtracking match of the pieces against u from position i. Only the
      start is anchored, so whatever follows the last piece is accepted. */
  predicate Matches(u: string, ps: seq<Piece>, i: nat)
    decreases |ps|
  {
    if ps == [] then true
    else
      var p := ps[0];
      if p.Lit? then At(u, i, p.text) && Matches(u, ps[1..], i + |p.text|)
      else if p.Opt? then (At(u, i, p.text) && Matches(u, ps[1..], i + |p.text|)) || Matches(u, ps[1..], i)
      else (At(u, i, p.left) && Matches(u, ps[1..], i + |p.left|)) ||
           (At(u, i, p.right) && Matches(u, ps[1..], i + |p.right|))
  }

  /** /^https?:\/\/(www\.)?(youtube\.com|youtu\.be)\//, piece by piece, built
      from its last piece back. */
  const TrailingSlash: seq<Piece> := [Lit("/")]
  const HostPart: seq<Piece> := [Alt("youtube.com", "youtu.be")] + TrailingSlash
  const WwwPart: seq<Piece> := [Opt("www.")] + HostPart
  const SeparatorPart: seq<Piece> := [Lit("://")] + WwwPart
  const SecurePart: seq<Piece> := [Opt("s")] + SeparatorPart
  const ClipUrlPattern: seq<Piece> := [Lit("http")] + SecurePart

  /** The eight prefixes the pattern is meant to admit. */
  const AllowedPrefixes: seq<string> :=
    [ "https://www.youtube.com/", "https://www.youtu.be/", "https://youtube.com/", "https://youtu.be/",
      "http://www.youtube.com/", "http://www.youtu.be/", "http://youtube.com/", "http://youtu.be/" ]

  /** t placed in front of each of xs. */
  function Prefixed(t: string, xs: seq<string>): (r: seq<string>)
    ensures |r| == |xs| && forall k :: 0 <= k < |xs| ==> r[k] == t + xs[k]
  {
    if xs == [] then [] else [t + xs[0]] + Prefixed(t, xs[1..])
  }

  /** The literal strings a pattern spells out, in the order the matcher
      tries them. */
  function Expansions(ps: seq<Piece>): seq<string>
    decreases |ps|
  {
    if ps == [] then [""]
    else
      var p, tails := ps[0], Expansions(ps[1..]);
      if p.Lit? then Prefixed(p.text, tails)
      else if p.Opt? then Prefixed(p.text, tails) + tails
      else Prefixed(p.left, tails) + Prefixed(p.right, tails)
  }

  /** Some string of xs occurs in u at position i. */
  predicate SomeAt(u: string, i: nat, xs: seq<string>)
  {
    xs != [] && (At(u, i, xs[0]) || SomeAt(u, i, xs[1..]))
  }

  lemma AtConcat(u: string, i: nat, a: string, b: string)
    ensures At(u, i, a + b) <==> At(u, i, a) && At(u, i + |a|, b)
  {
    if i + |a| + |b| <= |u| {
      assert u[i..i + |a| + |b|] == u[i..i + |a|] + u[i + |a|..i + |a| + |b|];
      if At(u, i, a + b) {
        assert u[i..i + |a|] == (a + b)[..|a|];
        assert u[i + |a|..i + |a| + |b|] == (a + b)[|a|..];
      }
    }
  }

  lemma {:induction false} SomeAtPrefixed(u: string, i: nat, t: string, xs: seq<string>)
    ensures SomeAt(u, i, Prefixed(t, xs)) <==> At(u, i, t) && SomeAt(u, i + |t|, xs)
  {
    if xs != [] {
      var r := Prefixed(t, xs);
      assert r[0] == t + xs[0];
      assert r[1..] == Prefixed(t, xs[1..]);
      AtConcat(u, i, t, xs[0]);
      SomeAtPrefixed(u, i, t, xs[1..]);
    }
  }

  lemma {:induction false} SomeAtAppend(u: string, i: nat, xs: seq<string>, ys: seq<string>)
    ensures SomeAt(u, i, xs + ys) <==> SomeAt(u, i, xs) || SomeAt(u, i, ys)
  {
    if xs == [] {
      assert xs + ys == ys;
    } else {
      assert (xs + ys)[0] == xs[0];
      assert (xs + ys)[1..] == xs[1..] + ys;
      SomeAtAppend(u, i, xs[1..], ys);
    }
  }

  /** One step of the matcher, by the kind of the first piece. */
  lemma MatchesStep(u: string, ps: seq<Piece>, i: nat)
    requires ps != []
    ensures ps[0].Lit? ==> Matches(u, ps, i) == (At(u, i, ps[0].text) && Matches(u, ps[1..], i + |ps[0].text|))
    ensures ps[0].Opt? ==>
              (Matches(u, ps, i) ==
               ((At(u, i, ps[0].text) && Matches(u, ps[1..], i + |ps[0].text|)) || Matches(u, ps[1..], i)))
    ensures ps[0].Alt? ==>
              (Matches(u, ps, i) ==
               ((At(u, i, ps[0].left) && Matches(u, ps[1..], i + |ps[0].left|)) ||
                (At(u, i, ps[0].right) && Matches(u, ps[1..], i + |ps[0].right|))))
  {
  }

  /** One step of the expansion, by the kind of the first piece. */
  lemma ExpansionsStep(ps: seq<Piece>)
    requires ps != []
    ensures ps[0].Lit? ==> Expansions(ps) == Prefixed(ps[0].text, Expansions(ps[1..]))
    ensures ps[0].Opt? ==> Expansions(ps) == Prefixed(ps[0].text, Expansions(ps[1..])) + Expansions(ps[1..])
    ensures ps[0].Alt? ==>
              Expansions(ps) == Prefixed(ps[0].left, Expansions(ps[1..])) + Prefixed(ps[0].right, Expansions(ps[1..]))
  {
  }

  /** A literal piece: it must occur at i, and the tails must match after it. */
  lemma LitCase(u: string, i: nat, t: string, tails: seq<string>, m: bool, rest: bool)
    requires m == (At(u, i, t) && rest)
    requires At(u, i, t) ==> (rest <==> SomeAt(u, i + |t|, tails))
    ensures m <==> SomeAt(u, i, Prefixed(t, tails))
  {
    SomeAtPrefixed(u, i, t, tails);
  }

  /** An optional piece: either it occurs and the tails match after it, or
      the tails match right at i. */
  lemma OptCase(u: string, i: nat, t: string, tails: seq<string>, m: bool, taken: bool, skipped: bool)
    requires m == ((At(u, i, t) && taken) || skipped)
    requires At(u, i, t) ==> (taken <==> SomeAt(u, i + |t|, tails))
    requires skipped <==> SomeAt(u, i, tails)
    ensures m <==> SomeAt(u, i, Prefixed(t, tails) + tails)
  {
    SomeAtPrefixed(u, i, t, tails);
    SomeAtAppend(u, i, Prefixed(t, tails), tails);
  }

  /** A choice: the left literal with the tails after it, or the right one. */
  lemma AltCase(u: string, i: nat, a: string, b: string, tails: seq<string>, m: bool, viaLeft: bool, viaRight: bool)
    requires m == ((At(u, i, a) && viaLeft) || (At(u, i, b) && viaRight))
    requires At(u, i, a) ==> (viaLeft <==> SomeAt(u, i + |a|, tails))
    requires At(u, i, b) ==> (viaRight <==> SomeAt(u, i + |b|, tails))
    ensures m <==> SomeAt(u, i, Prefixed(a, tails) + Prefixed(b, tails))
  {
    SomeAtPrefixed(u, i, a, tails);
    SomeAtPrefixed(u, i, b, tails);
    SomeAtAppend(u, i, Prefixed(a, tails), Prefixed(b, tails));
  }

  /** The empty pattern matches anywhere, and spells out the empty string. */
  lemma EmptyStep(u: string, i: nat)
    requires i <= |u|
    ensures Matches(u, [], i) && SomeAt(u, i, Expansions([]))
  {
    assert At(u, i, Expansions([])[0]) by { assert u[i..i] == ""; }
  }

  /** The three cases of the matcher's meaning, each given the meaning of
      the rest of the pattern at the positions the matcher tries. */
  lemma LitStep(u: string, ps: seq<Piece>, i: nat)
    requires ps != [] && ps[0].Lit?
    requires At(u, i, ps[0].text) ==>
               (Matches(u, ps[1..], i + |ps[0].text|) <==> SomeAt(u, i + |ps[0].text|, Expansions(ps[1..])))
    ensures Matches(u, ps, i) <==> SomeAt(u, i, Expansions(ps))
  {
    MatchesStep(u, ps, i);
    ExpansionsStep(ps);
    LitCase(u, i, ps[0].text, Expansions(ps[1..]), Matches(u, ps, i), Matches(u, ps[1..], i + |ps[0].text|));
  }

  lemma OptStep(u: string, ps: seq<Piece>, i: nat)
    requires ps != [] && ps[0].Opt?
    requires At(u, i, ps[0].text) ==>
               (Matches(u, ps[1..], i + |ps[0].text|) <==> SomeAt(u, i + |ps[0].text|, Expansions(ps[1..])))
    requires Matches(u, ps[1..], i) <==> SomeAt(u, i, Expansions(ps[1..]))
    ensures Matches(u, ps, i) <==> SomeAt(u, i, Expansions(ps))
  {
    MatchesStep(u, ps, i);
    ExpansionsStep(ps);
    OptCase(u, i, ps[0].text, Expansions(ps[1..]), Matches(u, ps, i),
            Matches(u, ps[1..], i + |ps[0].text|), Matches(u, ps[1..], i));
  }

  lemma AltStep(u: string, ps: seq<Piece>, i: nat)
    requires ps != [] && ps[0].Alt?
    requires At(u, i, ps[0].left) ==>
               (Matches(u, ps[1..], i + |ps[0].left|) <==> SomeAt(u, i + |ps[0].left|, Expansions(ps[1..])))
    requires At(u, i, ps[0].right) ==>
               (Matches(u, ps[1..], i + |ps[0].right|) <==> SomeAt(u, i + |ps[0].right|, Expansions(ps[1..])))
    ensures Matches(u, ps, i) <==> SomeAt(u, i, Expansions(ps))
  {
    MatchesStep(u, ps, i);
    ExpansionsStep(ps);
    AltCase(u, i, ps[0].left, ps[0].right, Expansions(ps[1..]), Matches(u, ps, i),
            Matches(u, ps[1..], i + |ps[0].left|), Matches(u, ps[1..], i + |ps[0].right|));
  }

  /** The backtracking matcher accepts exactly the strings in which one of the
      pattern's expansions occurs at the starting position. */
  lemma {:induction false} MatchesMeaning(u: string, ps: seq<Piece>, i: nat)
    requires i <= |u|
    ensures Matches(u, ps, i) <==> SomeAt(u, i, Expansions(ps))
    decreases |ps|, 1
  {
    if ps == [] {
      EmptyStep(u, i);
    } else if ps[0].Lit? {
      LitBranch(u, ps, i);
    } else if ps[0].Opt? {
      OptBranch(u, ps, i);
    } else {
      AltBranch(u, ps, i);
    }
  }

  lemma {:induction false} LitBranch(u: string, ps: seq<Piece>, i: nat)
    requires i <= |u| && ps != [] && ps[0].Lit?
    ensures Matches(u, ps, i) <==> SomeAt(u, i, Expansions(ps))
    decreases |ps|, 0
  {
    var t := ps[0].text;
    if At(u, i, t) { MatchesMeaning(u, ps[1..], i + |t|); }
    LitStep(u, ps, i);
  }

  lemma {:induction false} OptBranch(u: string, ps: seq<Piece>, i: nat)
    requires i <= |u| && ps != [] && ps[0].Opt?
    ensures Matches(u, ps, i) <==> SomeAt(u, i, Expansions(ps))
    decreases |ps|, 0
  {
    var t := ps[0].text;
    if At(u, i, t) { MatchesMeaning(u, ps[1..], i + |t|); }
    MatchesMeaning(u, ps[1..], i);
    OptStep(u, ps, i);
  }

  lemma {:induction false} AltBranch(u: string, ps: seq<Piece>, i: nat)
    requires i <= |u| && ps != [] && ps[0].Alt?
    ensures Matches(u, ps, i) <==> SomeAt(u, i, Expansions(ps))
    decreases |ps|, 0
  {
    var a, b := ps[0].left, ps[0].right;
    if At(u, i, a) { MatchesMeaning(u, ps[1..], i + |a|); }
    if At(u, i, b) { MatchesMeaning(u, ps[1..], i + |b|); }
    AltStep(u, ps, i);
  }

  lemma ExpansionsCons(p: Piece, rest: seq<Piece>)
    ensures p.Lit? ==> Expansions([p] + rest) == Prefixed(p.text, Expansions(rest))
    ensures p.Opt? ==> Expansions([p] + rest) == Prefixed(p.text, Expansions(rest)) + Expansions(rest)
    ensures p.Alt? ==> Expansions([p] + rest) == Prefixed(p.left, Expansions(rest)) + Prefixed(p.right, Expansions(rest))
  {
    assert ([p] + rest)[1..] == rest;
  }

  lemma PrefixedAll(t: string, xs: seq<string>, r: seq<string>)
    requires |r| == |xs| && forall k :: 0 <= k < |xs| ==> r[k] == t + xs[k]
    ensures Prefixed(t, xs) == r
  {
  }

  lemma PrefixedAppend(t: string, xs: seq<string>, ys: seq<string>)
    ensures Prefixed(t, xs + ys) == Prefixed(t, xs) + Prefixed(t, ys)
  {
    PrefixedAll(t, xs + ys, Prefixed(t, xs) + Prefixed(t, ys));
  }

  // The expansions of the clip pattern, one piece at a time from the end;
  // each literal concatenation is proved in a lemma of its own.

  lemma PrefixedPair(t: string, x: string, y: string, rx: string, ry: string)
    requires t + x == rx && t + y == ry
    ensures Prefixed(t, [x, y]) == [rx, ry]
  {
    assert [x, y][1..] == [y];
    assert [y][1..] == [];
  }

  lemma HostPartExpansions()
    ensures Expansions(HostPart) == ["youtube.com/", "youtu.be/"]
  {
    ExpansionsCons(Lit("/"), []);
    assert TrailingSlash == [Lit("/")] + [];
    PrefixedAll("/", [""], ["/"]);
    ExpansionsCons(Alt("youtube.com", "youtu.be"), TrailingSlash);
    PrefixedAll("youtube.com", ["/"], ["youtube.com/"]);
    PrefixedAll("youtu.be", ["/"], ["youtu.be/"]);
  }

  // The instances of PrefixedPair below each sit in a lemma of their own:
  // every equation between concatenated string literals is costly for the
  // solver, and one or two per proof obligation keep each obligation small.

  /** www. before both hosts. */
  lemma WwwHosts()
    ensures Prefixed("www.", ["youtube.com/", "youtu.be/"]) == ["www.youtube.com/", "www.youtu.be/"]
  {
    PrefixedPair("www.", "youtube.com/", "youtu.be/", "www.youtube.com/", "www.youtu.be/");
  }

  lemma WwwPartExpansions()
    ensures Expansions(WwwPart) == ["www.youtube.com/", "www.youtu.be/", "youtube.com/", "youtu.be/"]
  {
    HostPartExpansions();
    ExpansionsCons(Opt("www."), HostPart);
    WwwHosts();
  }

  /** :// before the www. forms. */
  lemma SeparatorLong()
    ensures Prefixed("://", ["www.youtube.com/", "www.youtu.be/"]) == ["://www.youtube.com/", "://www.youtu.be/"]
  {
    PrefixedPair("://", "www.youtube.com/", "www.youtu.be/", "://www.youtube.com/", "://www.youtu.be/");
  }

  /** :// before the bare hosts. */
  lemma SeparatorShort()
    ensures Prefixed("://", ["youtube.com/", "youtu.be/"]) == ["://youtube.com/", "://youtu.be/"]
  {
    PrefixedPair("://", "youtube.com/", "youtu.be/", "://youtube.com/", "://youtu.be/");
  }

  lemma SeparatorPartExpansions()
    ensures Expansions(SeparatorPart) == ["://www.youtube.com/", "://www.youtu.be/", "://youtube.com/", "://youtu.be/"]
  {
    WwwPartExpansions();
    ExpansionsCons(Lit("://"), WwwPart);
    PrefixedAppend("://", ["www.youtube.com/", "www.youtu.be/"], ["youtube.com/", "youtu.be/"]);
    assert ["www.youtube.com/", "www.youtu.be/", "youtube.com/", "youtu.be/"] == ["www.youtube.com/", "www.youtu.be/"] + ["youtube.com/", "youtu.be/"];
    SeparatorLong();
    SeparatorShort();
  }

  /** s before the www. forms. */
  lemma SecureLong()
    ensures Prefixed("s", ["://www.youtube.com/", "://www.youtu.be/"]) == ["s://www.youtube.com/", "s://www.youtu.be/"]
  {
    PrefixedPair("s", "://www.youtube.com/", "://www.youtu.be/", "s://www.youtube.com/", "s://www.youtu.be/");
  }

  /** s before the bare hosts. */
  lemma SecureShort()
    ensures Prefixed("s", ["://youtube.com/", "://youtu.be/"]) == ["s://youtube.com/", "s://youtu.be/"]
  {
    PrefixedPair("s", "://youtube.com/", "://youtu.be/", "s://youtube.com/", "s://youtu.be/");
  }

  lemma SecureTails()
    ensures Prefixed("s", Expansions(SeparatorPart)) == ["s://www.youtube.com/", "s://www.youtu.be/", "s://youtube.com/", "s://youtu.be/"]
  {
    SeparatorPartExpansions();
    PrefixedAppend("s", ["://www.youtube.com/", "://www.youtu.be/"], ["://youtube.com/", "://youtu.be/"]);
    assert ["://www.youtube.com/", "://www.youtu.be/", "://youtube.com/", "://youtu.be/"] == ["://www.youtube.com/", "://www.youtu.be/"] + ["://youtube.com/", "://youtu.be/"];
    SecureLong();
    SecureShort();
  }

  /** http before s://www. */
  lemma HttpsLong()
    ensures Prefixed("http", ["s://www.youtube.com/", "s://www.youtu.be/"]) == ["https://www.youtube.com/", "https://www.youtu.be/"]
  {
    PrefixedPair("http", "s://www.youtube.com/", "s://www.youtu.be/", "https://www.youtube.com/", "https://www.youtu.be/");
  }

  /** http before s:// and a bare host. */
  lemma HttpsShort()
    ensures Prefixed("http", ["s://youtube.com/", "s://youtu.be/"]) == ["https://youtube.com/", "https://youtu.be/"]
  {
    PrefixedPair("http", "s://youtube.com/", "s://youtu.be/", "https://youtube.com/", "https://youtu.be/");
  }

  lemma SecureExpansions()
    ensures Prefixed("http", Prefixed("s", Expansions(SeparatorPart))) == ["https://www.youtube.com/", "https://www.youtu.be/", "https://youtube.com/", "https://youtu.be/"]
  {
    SecureTails();
    PrefixedAppend("http", ["s://www.youtube.com/", "s://www.youtu.be/"], ["s://youtube.com/", "s://youtu.be/"]);
    assert ["s://www.youtube.com/", "s://www.youtu.be/", "s://youtube.com/", "s://youtu.be/"] == ["s://www.youtube.com/", "s://www.youtu.be/"] + ["s://youtube.com/", "s://youtu.be/"];
    HttpsLong();
    HttpsShort();
  }

  /** http before ://www. */
  lemma HttpLong()
    ensures Prefixed("http", ["://www.youtube.com/", "://www.youtu.be/"]) == ["http://www.youtube.com/", "http://www.youtu.be/"]
  {
    PrefixedPair("http", "://www.youtube.com/", "://www.youtu.be/", "http://www.youtube.com/", "http://www.youtu.be/");
  }

  /** http before :// and a bare host. */
  lemma HttpShort()
    ensures Prefixed("http", ["://youtube.com/", "://youtu.be/"]) == ["http://youtube.com/", "http://youtu.be/"]
  {
    PrefixedPair("http", "://youtube.com/", "://youtu.be/", "http://youtube.com/", "http://youtu.be/");
  }

  lemma PlainExpansions()
    ensures Prefixed("http", Expansions(SeparatorPart)) == ["http://www.youtube.com/", "http://www.youtu.be/", "http://youtube.com/", "http://youtu.be/"]
  {
    SeparatorPartExpansions();
    PrefixedAppend("http", ["://www.youtube.com/", "://www.youtu.be/"], ["://youtube.com/", "://youtu.be/"]);
    assert ["://www.youtube.com/", "://www.youtu.be/", "://youtube.com/", "://youtu.be/"] == ["://www.youtube.com/", "://www.youtu.be/"] + ["://youtube.com/", "://youtu.be/"];
    HttpLong();
    HttpShort();
  }

  /** The clip pattern spells out exactly the eight allowed prefixes. */
  lemma ClipPatternExpansions()
    ensures Expansions(ClipUrlPattern) == AllowedPrefixes
  {
    var tails := Expansions(SeparatorPart);
    ExpansionsCons(Opt("s"), SeparatorPart);
    ExpansionsCons(Lit("http"), SecurePart);
    PrefixedAppend("http", Prefixed("s", tails), tails);
    SecureExpansions();
    PlainExpansions();
  }

  /** The clip routes' URL test: the raw URL must start with http:// or
      https://, an optional www., then youtube.com/ or youtu.be/; the rest of
      the URL is unconstrained. */
  function IsClipUrl(u: string): (ok: bool)
    ensures ok <==> exists k :: 0 <= k < |AllowedPrefixes| && StartsWith(u, AllowedPrefixes[k])
  {
    MatchesMeaning(u, ClipUrlPattern, 0);
    ClipPatternExpansions();
    StartsWithIsAt(u, AllowedPrefixes);
    Matches(u, ClipUrlPattern, 0)
  }

  lemma {:induction false} StartsWithIsAt(u: string, xs: seq<string>)
    ensures SomeAt(u, 0, xs) <==> exists k :: 0 <= k < |xs| && StartsWith(u, xs[k])
  {
    if xs != [] {
      var x := xs[0];
      assert At(u, 0, x) <==> StartsWith(u, x) by {
        if |x| <= |u| { assert u[..|x|] == u[0..|x|]; }
      }
      StartsWithIsAt(u, xs[1..]);
      if exists k :: 0 <= k < |xs| && StartsWith(u, xs[k]) {
        var k :| 0 <= k < |xs| && StartsWith(u, xs[k]);
        if k > 0 { assert xs[1..][k - 1] == xs[k]; }
      }
      if exists k :: 0 <= k < |xs[1..]| && StartsWith(u, xs[1..][k]) {
        var k :| 0 <= k < |xs[1..]| && StartsWith(u, xs[1..][k]);
        assert xs[k + 1] == xs[1..][k];
      }
    }
  }

  /** The prefix test is stricter than the hostname test: a mobile link passes
      the hostname test and fails the prefix test. */
  lemma GatesDisagree(host: string, u: string)
    requires host == "m.youtube.com" && u == "https://m.youtube.com/watch?v=x"
    ensures IsYouTube(Some(host))
    ensures !IsClipUrl(u)
  {
    SubdomainsAccepted("m");
    assert host == "m" + "." + "youtube.com";
    forall k | 0 <= k < |AllowedPrefixes| ensures !StartsWith(u, AllowedPrefixes[k]) {
      var p := AllowedPrefixes[k];
      if k < 4 {
        assert |p| > 8 && p[8] != 'm' && u[8] == 'm';
      } else {
        assert |p| > 4 && p[4] != 's' && u[4] == 's';
      }
    }
  }

}
