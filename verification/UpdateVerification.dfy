// What a client accepts as an update: a newer version, and bytes that hash as stated.
module UpdateVerification {
  import opened Errors
  import opened Text
  import opened UpdateClient

  // Newer is a strict total order in which the major number decides before the minor one,
  // and that before the patch.
  lemma NewerIsStrictTotalOrder(u: Version, v: Version, w: Version)
    ensures !u.IsNewerThan(u)
    ensures u.IsNewerThan(v) && v.IsNewerThan(w) ==> u.IsNewerThan(w)
    ensures u.IsNewerThan(v) || v.IsNewerThan(u) || u == v
    ensures u.major > v.major ==> u.IsNewerThan(v) && !v.IsNewerThan(u)
    ensures u.major == v.major && u.minor > v.minor ==> u.IsNewerThan(v) && !v.IsNewerThan(u)
    ensures u.major == v.major && u.minor == v.minor ==> (u.IsNewerThan(v) <==> u.patch > v.patch)
  {}

  predicate IsLowerHex(h: string) {
    forall c | c in h :: '0' <= c <= '9' || 'a' <= c <= 'f'
  }

  // The same digits, the letters in either case.
  predicate SameHex(t: string, h: string) {
    |t| == |h| && forall i | 0 <= i < |h| :: t[i] == h[i] || ('A' <= t[i] <= 'F' && h[i] == t[i] - 'A' + 'a')
  }

  // A stated hash accepts exactly the bytes whose digest it spells, in either case and
  // between any blanks.
  lemma AcceptedIff(c: Config, a: Artifact, w: World)
    requires w.fetched.Ok? && IsLowerHex(c.sha(w.fetched.value))
    ensures CheckedFetch(c, a, w).Ok?
       <==> exists pre, t, post ::
              IsBlank(pre) && IsBlank(post) && a.sha256 == pre + t + post && SameHex(t, c.sha(w.fetched.value))
    ensures CheckedFetch(c, a, w) in {Ok(w.fetched.value), Err(Integrity)}
  {
    var h, t := c.sha(w.fetched.value), Trim(a.sha256);
    LoweredIff(t, h);
    if Wanted(a) == h {
      TrimmedIff(a.sha256, t);
    }
    if pre, t', post :| IsBlank(pre) && IsBlank(post) && a.sha256 == pre + t' + post && SameHex(t', h) {
      HexIsTight(t', h);
      TrimmedIff(a.sha256, t');
      assert t' == t;
    }
  }

  lemma LoweredIff(t: string, h: string)
    requires IsLowerHex(h)
    ensures SameHex(t, h) <==> seq(|t|, i requires 0 <= i < |t| => Lower(t[i])) == h
  {
    var lowered := seq(|t|, i requires 0 <= i < |t| => Lower(t[i]));
    assert forall i | 0 <= i < |h| :: h[i] in h;
    if SameHex(t, h) {
      forall i | 0 <= i < |t| ensures lowered[i] == h[i] {
      }
    }
    if lowered == h {
      forall i | 0 <= i < |t| ensures h[i] == Lower(t[i]) {
        assert lowered[i] == h[i];
      }
    }
  }

  lemma HexIsTight(t: string, h: string)
    requires IsLowerHex(h) && SameHex(t, h)
    ensures IsTight(t)
  {
    assert forall i | 0 <= i < |h| :: h[i] in h;
  }
}
