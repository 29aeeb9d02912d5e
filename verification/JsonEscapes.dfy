// Repair of invalid JSON escapes in model output.
module JsonEscapes {
  // First characters allowed after a backslash (section 7 of RFC 8259).
  predicate IsValidJSONEscapeChar(c: char) {
    c in {'"', '\\', '/', 'b', 'f', 'n', 'r', 't', 'u'}
  }

  // The two-character escapes of the standard, and the four-digit one.
  lemma EscapesOfTheStandard(c: char)
    ensures IsValidJSONEscapeChar(c) <==>
            || c == '\"' || c == '\\' || c == '/'
            || c == 'b' || c == 'f' || c == 'n' || c == 'r' || c == 't' || c == 'u'
  {
  }

  /** The simple form: read escapes pair by pair and drop the backslash of an illegal one.
      A lone backslash at the very end is left as it is. */
  function PairScan(s: string): (r: string)
    ensures |r| <= |s|
  {
    if s == "" then ""
    else if s[0] != '\\' then [s[0]] + PairScan(s[1..])
    else if |s| == 1 then s
    else if IsValidJSONEscapeChar(s[1]) then s[..2] + PairScan(s[2..])
    else [s[1]] + PairScan(s[2..])
  }

  // Every escape that is followed by a character is legal.
  predicate ValidEscapes(s: string) {
    || |s| == 0
    || (s[0] != '\\' && ValidEscapes(s[1..]))
    || (s[0] == '\\' && (|s| == 1 || (IsValidJSONEscapeChar(s[1]) && ValidEscapes(s[2..]))))
  }

  // r is s with some backslashes left out.
  predicate DropsBackslashes(s: string, r: string) {
    if s == "" then r == ""
    else
      || (r != "" && r[0] == s[0] && DropsBackslashes(s[1..], r[1..]))
      || (s[0] == '\\' && DropsBackslashes(s[1..], r))
  }

  // ------------------------------------------------------------- the fast form

  function Slashes(n: nat): (r: string)
    ensures |r| == n && forall i :: 0 <= i < n ==> r[i] == '\\'
  {
    seq(n, _ => '\\')
  }

  // Only the parity of a run of backslashes and the character after it matter.
  lemma {:induction false} ScanRun(n: nat, t: string)
    requires t == "" || t[0] != '\\'
    ensures var drop := n % 2 == 1 && t != "" && !IsValidJSONEscapeChar(t[0]);
            PairScan(Slashes(n) + t) == Slashes(if drop then n - 1 else n) + PairScan(t)
  {
    var s := Slashes(n) + t;
    if n == 0 {
      assert s == t;
    } else if n == 1 {
      ScanOne(t);
    } else {
      var m := if n % 2 == 1 && t != "" && !IsValidJSONEscapeChar(t[0]) then n - 1 else n;
      ScanTwo(n, t);
      ScanRun(n - 2, t);
      MoreSlashes(m, PairScan(t));
    }
  }

  lemma {:induction false} ScanTwo(n: nat, t: string)
    requires n >= 2
    ensures PairScan(Slashes(n) + t) == Slashes(2) + PairScan(Slashes(n - 2) + t)
  {
    var s := Slashes(n) + t;
    assert s[2..] == Slashes(n - 2) + t;
    assert s[..2] == Slashes(2) && s[1] == '\\';
  }

  lemma MoreSlashes(m: nat, rest: string)
    requires m >= 2
    ensures Slashes(2) + (Slashes(m - 2) + rest) == Slashes(m) + rest
  {
  }

  lemma {:induction false} ScanOne(t: string)
    requires t == "" || t[0] != '\\'
    ensures var drop := t != "" && !IsValidJSONEscapeChar(t[0]);
            PairScan(Slashes(1) + t) == Slashes(if drop then 0 else 1) + PairScan(t)
  {
    var s := Slashes(1) + t;
    assert s[1..] == t && s[0] == '\\';
    if t != "" {
      assert s[2..] == t[1..] && s[1] == t[0];
      assert s[..2] == Slashes(1) + [t[0]];
      assert PairScan(t) == [t[0]] + PairScan(t[1..]);
    } else {
      assert s == Slashes(1) + PairScan(t);
    }
  }

  method RunEnd(s: string, i: nat) returns (j: nat)
    requires i < |s|
    ensures i <= j <= |s| && (s[i] == '\\' ==> i < j)
    ensures s[i..] == Slashes(j - i) + s[j..]
    ensures j < |s| ==> s[j] != '\\'
  {
    j := i;
    while j < |s| && s[j] == '\\'
      invariant i <= j <= |s|
      invariant forall k :: i <= k < j ==> s[k] == '\\'
    {
      j := j + 1;
    }
  }

  method WriteSlashes(b: string, n: nat) returns (r: string)
    ensures r == b + Slashes(n)
  {
    r := b;
    for k := 0 to n
      invariant r == b + Slashes(k)
    {
      r := r + ['\\'];
    }
  }

  lemma {:induction false} ScanPlain(s: string, i: nat)
    requires i < |s| && s[i] != '\\'
    ensures PairScan(s[i..]) == [s[i]] + PairScan(s[i + 1..])
  {
    assert s[i..][1..] == s[i + 1..];
  }

  lemma Regroup(done: string, next: string, rest: string)
    ensures done + (next + rest) == (done + next) + rest
  {
  }

  method FixInvalidJSONEscapes(s: string) returns (r: string)
    ensures r == PairScan(s)
  {
    r := "";
    var i := 0;
    ghost var rest := PairScan(s);
    while i < |s|
      invariant i <= |s| && rest == PairScan(s[i..])
      invariant r + rest == PairScan(s)
    {
      if s[i] != '\\' {
        ScanPlain(s, i);
        Regroup(r, [s[i]], PairScan(s[i + 1..]));
        r := r + [s[i]];
        i := i + 1;
      } else {
        var j := RunEnd(s, i);
        var runLen := j - i;
        ScanRun(runLen, s[j..]);
        if j < |s| && !IsValidJSONEscapeChar(s[j]) && runLen % 2 == 1 {
          runLen := runLen - 1;
        }
        Regroup(r, Slashes(runLen), PairScan(s[j..]));
        r := WriteSlashes(r, runLen);
        i := j;
      }
      rest := PairScan(s[i..]);
    }
    assert s[i..] == "";
  }

  // ------------------------------------------------------ what the repair means

  lemma {:induction false} RepairedIsValid(s: string)
    ensures ValidEscapes(PairScan(s))
  {
    if s != "" {
      var r := PairScan(s);
      if s[0] != '\\' {
        RepairedIsValid(s[1..]);
        assert r[1..] == PairScan(s[1..]);
      } else if |s| > 1 {
        RepairedIsValid(s[2..]);
        if IsValidJSONEscapeChar(s[1]) {
          assert r[2..] == PairScan(s[2..]);
        } else {
          assert r[1..] == PairScan(s[2..]);
        }
      }
    }
  }

  /** Exactly the valid texts are left alone. */
  lemma {:induction false} UnchangedIffValid(s: string)
    ensures PairScan(s) == s <==> ValidEscapes(s)
  {
    if ValidEscapes(s) {
      ValidIsUnchanged(s);
    } else {
      RepairedIsValid(s);
    }
  }

  lemma {:induction false} ValidIsUnchanged(s: string)
    requires ValidEscapes(s)
    ensures PairScan(s) == s
  {
    if s != "" {
      if s[0] != '\\' {
        ValidIsUnchanged(s[1..]);
      } else if |s| > 1 {
        ValidIsUnchanged(s[2..]);
      }
    }
  }

  lemma RepairIsIdempotent(s: string)
    ensures PairScan(PairScan(s)) == PairScan(s)
  {
    RepairedIsValid(s);
    ValidIsUnchanged(PairScan(s));
  }

  lemma {:induction false} OnlyBackslashesGo(s: string)
    ensures DropsBackslashes(s, PairScan(s))
  {
    if s != "" {
      var r := PairScan(s);
      if s[0] != '\\' {
        OnlyBackslashesGo(s[1..]);
        assert r[1..] == PairScan(s[1..]);
      } else if |s| > 1 {
        OnlyBackslashesGo(s[2..]);
        assert s[1..][1..] == s[2..];
        if IsValidJSONEscapeChar(s[1]) {
          assert r[1..][1..] == PairScan(s[2..]);
          assert DropsBackslashes(s[1..], r[1..]);
        } else {
          assert r[1..] == PairScan(s[2..]);
          assert DropsBackslashes(s[1..], r);
        }
      } else {
        assert DropsBackslashes(s[1..], r[1..]);
      }
    }
  }

  // --------------------------------------------------------------- minimality

  lemma {:induction false} OneMoreBackslash(u: string)
    ensures |PairScan(u)| <= |PairScan(['\\'] + u)| <= |PairScan(u)| + 2
  {
    var s := ['\\'] + u;
    if u != "" {
      assert s[2..] == u[1..] && s[1] == u[0];
      if u[0] == '\\' {
        OneMoreBackslash(u[1..]);
        assert u == ['\\'] + u[1..];
      }
    }
  }

  lemma {:induction false} BestAfterBackslash(t: string, r: string)
    requires DropsBackslashes(t, r) && ValidEscapes(['\\'] + r)
    ensures |r| <= |PairScan(t)| + 1
    decreases |t|, 1
  {
    if r != "" {
      var s := ['\\'] + r;
      assert s[1] == r[0] && s[2..] == r[1..];
      if r[0] == t[0] && DropsBackslashes(t[1..], r[1..]) {
        RepairIsMinimal(t[1..], r[1..]);
        if t[0] == '\\' {
          OneMoreBackslash(t[1..]);
          assert t == ['\\'] + t[1..];
        }
      } else {
        BestAfterBackslash(t[1..], r);
        OneMoreBackslash(t[1..]);
        assert t == ['\\'] + t[1..];
      }
    }
  }

  /** No valid text reachable by leaving out backslashes keeps more characters: the repair
      removes as little as possible. */
  lemma {:induction false} RepairIsMinimal(s: string, r: string)
    requires DropsBackslashes(s, r) && ValidEscapes(r)
    ensures |r| <= |PairScan(s)|
    decreases |s|, 1
  {
    if s != "" && |r| > 0 {
      var t := s[1..];
      assert s == [s[0]] + t;
      if s[0] != '\\' {
        RepairIsMinimal(t, r[1..]);
      } else if DropsBackslashes(t, r) {
        RepairIsMinimal(t, r);
        OneMoreBackslash(t);
      } else if t != "" {
        KeptBackslash(s, r);
      }
    }
  }

  lemma {:induction false} KeptBackslash(s: string, r: string)
    requires |s| > 1 && s[0] == '\\' && r != "" && r[0] == '\\'
    requires DropsBackslashes(s[1..], r[1..]) && ValidEscapes(r)
    ensures |r| <= |PairScan(s)|
    decreases |s|, 0
  {
    var t, q := s[1..], r[1..];
    assert s[2..] == t[1..] && r == ['\\'] + q;
    if q == "" {
      OneMoreBackslash(t);
    } else {
      assert r[2..] == q[1..] && r[1] == q[0];
      if q[0] == t[0] && DropsBackslashes(t[1..], q[1..]) {
        RepairIsMinimal(t[1..], q[1..]);
      } else {
        BestAfterBackslash(t[1..], q);
      }
    }
  }
}
