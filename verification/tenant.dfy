/**
 Tenant extraction for the Microsoft Entra ID provider.

 The provider reads its tenant from the configured issuer URL with the
 regular expression `/\/([^\/]+)\/wsfed$/` and falls back to the tenant
 `"common"` when the expression yields nothing truthy. The expression has no
 flags, so `$` anchors at the very end of the string, and `[^\/]` matches any
 character but `/` (including line breaks).

 The regular expression is modelled in two layers:
 - `MatchAt(s, i)` is the pattern tried at one start position `i`;
 - `FirstMatch(s, from)` is `String.prototype.match` without the `g` flag:
   the capture of the leftmost start position that matches.
 The independent description of a match is `Decomposes`: the issuer is
 `prefix + "/" + seg + "/wsfed"` with `seg` non-empty and slash-free.
 */
module Tenant {
  import opened Wrappers

  const WsfedSuffix: string := "/wsfed"

  /** The tenant used when the issuer carries none. */
  const DefaultTenant: string := "common"

  predicate SlashFree(s: string) {
    forall k :: 0 <= k < |s| ==> s[k] != '/'
  }

  /** `issuer` splits as `prefix + "/" + seg + "/wsfed"`, which is exactly
      what the capture group `([^\/]+)` between the two slashes accepts. */
  predicate Decomposes(issuer: string, prefix: string, seg: string) {
    && seg != ""
    && SlashFree(seg)
    && issuer == prefix + "/" + seg + WsfedSuffix
  }

  /** The pattern tried at start position `i`; yields capture group 1. The
      anchor `$` fixes the end of the match, so the capture is everything
      between the slash at `i` and the trailing `/wsfed`. */
  function MatchAt(s: string, i: nat): (m: Option<string>)
    requires i <= |s|
    ensures m.Some? ==> Decomposes(s, s[..i], m.value)
    ensures forall seg :: Decomposes(s, s[..i], seg) ==> m == Some(seg)
  {
    if |s| - i >= 8 && s[i] == '/' && s[|s| - 6..] == WsfedSuffix
       && SlashFree(s[i + 1..|s| - 6])
    then
      assert s == s[..i] + "/" + s[i + 1..|s| - 6] + WsfedSuffix;
      Some(s[i + 1..|s| - 6])
    else
      None
  }

  /** The leftmost match at or after `from`, as `String.prototype.match`
      reports it. */
  function FirstMatch(s: string, from: nat): (m: Option<string>)
    requires from <= |s|
    ensures m.Some? ==> exists i :: from <= i <= |s| && Decomposes(s, s[..i], m.value)
    decreases |s| - from
  {
    if MatchAt(s, from).Some? then MatchAt(s, from)
    else if from == |s| then None
    else FirstMatch(s, from + 1)
  }

  /** `config.issuer.match(...)?.[1] || "common"`. */
  function TenantId(issuer: string): (t: string)
    ensures t != "" && SlashFree(t)
  {
    var m := FirstMatch(issuer, 0);
    if m.Some? && m.value != "" then m.value else DefaultTenant
  }

  /** In a decomposition the slash before the segment sits at `|prefix|`,
      and the segment and suffix are where the decomposition says. */
  lemma DecomposesShape(s: string, prefix: string, seg: string)
    requires Decomposes(s, prefix, seg)
    ensures |s| == |prefix| + |seg| + 7
    ensures s[..|prefix|] == prefix
    ensures s[|prefix|] == '/'
    ensures s[|prefix| + 1..|s| - 6] == seg
    ensures s[|s| - 6..] == WsfedSuffix
  {
    assert s == prefix + ("/" + seg + WsfedSuffix);
  }

  /** No start position before the decomposition's slash matches: any such
      attempt would have to capture that slash. */
  lemma {:induction false} FirstMatchFrom(s: string, prefix: string, seg: string, from: nat)
    requires Decomposes(s, prefix, seg)
    requires from <= |prefix|
    ensures FirstMatch(s, from) == Some(seg)
    decreases |prefix| - from
  {
    DecomposesShape(s, prefix, seg);
    if from == |prefix| {
      assert s[..from] == prefix;
      assert MatchAt(s, from) == Some(seg);
    } else {
      FirstMatchFrom(s, prefix, seg, from + 1);
    }
  }

  /** The regular expression finds every decomposition, and no start
      position before the decomposition's slash matches. */
  lemma FirstMatchComplete(s: string, prefix: string, seg: string)
    requires Decomposes(s, prefix, seg)
    ensures FirstMatch(s, 0) == Some(seg)
    ensures forall j :: 0 <= j < |prefix| ==> MatchAt(s, j).None?
  {
    FirstMatchFrom(s, prefix, seg, 0);
    DecomposesShape(s, prefix, seg);
    forall j | 0 <= j < |prefix|
      ensures MatchAt(s, j).None?
    {
      if |s| - j >= 8 && s[|s| - 6..] == WsfedSuffix {
        var cap := s[j + 1..|s| - 6];
        assert cap[|prefix| - j - 1] == '/';
        assert !SlashFree(cap);
      }
    }
  }

  /** A decomposition, when one exists, is unique: only the last path
      segment before `/wsfed` can be captured. */
  lemma DecompositionUnique(s: string, p1: string, seg1: string, p2: string, seg2: string)
    requires Decomposes(s, p1, seg1)
    requires Decomposes(s, p2, seg2)
    ensures p1 == p2 && seg1 == seg2
  {
    FirstMatchComplete(s, p1, seg1);
    FirstMatchComplete(s, p2, seg2);
    DecomposesShape(s, p1, seg1);
    DecomposesShape(s, p2, seg2);
  }

  /** An issuer of the form `p + "/" + seg + "/wsfed"` yields exactly `seg`. */
  lemma TenantIsSegment(issuer: string, prefix: string, seg: string)
    requires Decomposes(issuer, prefix, seg)
    ensures TenantId(issuer) == seg
  {
    FirstMatchComplete(issuer, prefix, seg);
  }

  /** An issuer of no such form yields the default tenant. */
  lemma TenantFallsBack(issuer: string)
    requires forall prefix, seg :: !Decomposes(issuer, prefix, seg)
    ensures TenantId(issuer) == DefaultTenant
  {
  }

  /** The `|| "common"` fallback fires only when there is no match at all:
      a capture is never empty. */
  lemma FallbackOnlyWithoutMatch(issuer: string)
    ensures FirstMatch(issuer, 0).Some? ==> TenantId(issuer) == FirstMatch(issuer, 0).value
    ensures FirstMatch(issuer, 0).None? ==> TenantId(issuer) == DefaultTenant
  {
  }

  /** Exactly one of the two cases applies to every issuer, and each has its
      tenant: the decomposition's segment, or `"common"`. */
  lemma TenantCharacterisation(issuer: string)
    ensures (exists prefix, seg :: Decomposes(issuer, prefix, seg) && TenantId(issuer) == seg)
            || ((forall prefix, seg :: !Decomposes(issuer, prefix, seg)) && TenantId(issuer) == DefaultTenant)
  {
    if exists prefix, seg :: Decomposes(issuer, prefix, seg) {
      var prefix, seg :| Decomposes(issuer, prefix, seg);
      TenantIsSegment(issuer, prefix, seg);
    } else {
      TenantFallsBack(issuer);
    }
  }

  /** An issuer that does not end in `/wsfed` never decomposes. */
  lemma NoSuffixNoDecomposition(issuer: string)
    requires |issuer| < 6 || issuer[|issuer| - 6..] != WsfedSuffix
    ensures forall prefix, seg :: !Decomposes(issuer, prefix, seg)
  {
    forall prefix, seg | Decomposes(issuer, prefix, seg)
      ensures false
    {
      DecomposesShape(issuer, prefix, seg);
    }
  }
}
