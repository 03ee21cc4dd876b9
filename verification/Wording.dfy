/** What trimming, upper-casing and the checks on request texts mean, character by character. */
module Wording {
  import opened Types
  import opened Text

  /** The six ASCII characters that count as white space. */
  predicate White(c: char)
  {
    c as int == 32 || 9 <= c as int <= 13
  }

  /** The same letter up to ASCII case, or the same character. */
  predicate SameLetter(c: char, d: char)
  {
    || c == d
    || (97 <= c as int <= 122 && d as int == c as int - 32)
    || (97 <= d as int <= 122 && c as int == d as int - 32)
  }

  predicate LowerCase(c: char) { 97 <= c as int <= 122 }

  /** s without the white space at its two ends is s[i..j]. */
  predicate TrimsTo(s: string, i: nat, j: nat)
  {
    && i <= j <= |s|
    && (forall k :: 0 <= k < i ==> White(s[k])) && (forall k :: j <= k < |s| ==> White(s[k]))
    && (i < j ==> !White(s[i]) && !White(s[j - 1]))
  }

  predicate Blank(s: string)
  {
    forall k :: 0 <= k < |s| ==> White(s[k])
  }

  lemma {:induction false} LeftEnd(s: string) returns (i: nat)
    ensures i <= |s| && TrimLeft(s) == s[i..]
    ensures forall k :: 0 <= k < i ==> White(s[k])
    ensures i < |s| ==> !White(s[i])
  {
    if s != "" && IsSpace(s[0]) {
      i := LeftEnd(s[1..]);
      forall k | 0 <= k < i + 1 ensures White(s[k]) {
        assert k > 0 ==> s[1..][k - 1] == s[k];
      }
      i := i + 1;
    } else {
      i := 0;
    }
  }

  lemma {:induction false} RightEnd(s: string) returns (j: nat)
    ensures j <= |s| && TrimRight(s) == s[..j]
    ensures forall k :: j <= k < |s| ==> White(s[k])
    ensures j > 0 ==> !White(s[j - 1])
  {
    if s != "" && IsSpace(s[|s| - 1]) {
      var front := s[..|s| - 1];
      j := RightEnd(front);
      assert front[..j] == s[..j];
      forall k | j <= k < |s| ensures White(s[k]) {
        assert k < |front| ==> front[k] == s[k];
      }
    } else {
      j := |s|;
    }
  }

  /** Trimming finds such ends. */
  lemma TrimFindsEnds(s: string) returns (i: nat, j: nat)
    ensures TrimsTo(s, i, j) && TrimSpace(s) == s[i..j]
  {
    i := LeftEnd(s);
    var t := s[i..];
    var n := RightEnd(t);
    j := i + n;
    assert t[..n] == s[i..j];
    forall k | j <= k < |s| ensures White(s[k]) {
      assert t[k - i] == s[k];
    }
    if n > 0 {
      assert t[n - 1] == s[j - 1] && t[0] == s[i];
    }
  }

  /** Whatever ends fit, the text between them is the same. */
  lemma EndsAgree(s: string, i: nat, j: nat, m: nat, n: nat)
    requires TrimsTo(s, i, j) && TrimsTo(s, m, n)
    ensures s[i..j] == s[m..n]
  {
    if i < j {
      assert !White(s[i]) && !White(s[j - 1]);
    }
    if m < n {
      assert !White(s[m]) && !White(s[n - 1]);
    }
  }

  /** Two texts of equal length agree position by position, up to case. */
  predicate SameText(s: string, t: string)
  {
    |s| == |t| && forall k :: 0 <= k < |s| ==> SameLetter(s[k], t[k])
  }

  /** Two currencies mean the same: without the white space around them they are the same text up to case. */
  ghost predicate SameCurrency(c: string, d: string)
  {
    exists i: nat, j: nat, m: nat, n: nat ::
      TrimsTo(c, i, j) && TrimsTo(d, m, n) && SameText(c[i..j], d[m..n])
  }

  /** A text in capitals, with no white space around it. */
  predicate Capitals(s: string)
  {
    && (forall k :: 0 <= k < |s| ==> !LowerCase(s[k]))
    && (s != "" ==> !White(s[0]) && !White(s[|s| - 1]))
  }

  lemma UpperMeans(c: char, d: char)
    ensures UpperChar(c) == UpperChar(d) <==> SameLetter(c, d)
    ensures SameLetter(UpperChar(c), c) && !LowerCase(UpperChar(c)) && (White(UpperChar(c)) <==> White(c))
  {
  }

  lemma UpperText(s: string, t: string)
    ensures ToUpper(s) == ToUpper(t) <==> SameText(s, t)
    ensures SameText(ToUpper(s), s) && forall k :: 0 <= k < |s| ==> !LowerCase(ToUpper(s)[k])
  {
    ToUpperAt(s);
    ToUpperAt(t);
    forall k | 0 <= k < |s| ensures SameLetter(ToUpper(s)[k], s[k]) && !LowerCase(ToUpper(s)[k]) {
      UpperMeans(s[k], s[k]);
    }
    if |s| == |t| {
      forall k | 0 <= k < |s| ensures ToUpper(s)[k] == ToUpper(t)[k] <==> SameLetter(s[k], t[k]) {
        UpperMeans(s[k], t[k]);
      }
      assert ToUpper(s) == ToUpper(t) <==> forall k :: 0 <= k < |s| ==> ToUpper(s)[k] == ToUpper(t)[k];
    }
  }

  /** The normalised currency is the trimmed one in capitals. */
  lemma NormalMeans(c: string, i: nat, j: nat)
    requires TrimsTo(c, i, j)
    ensures SameText(Normal(c), c[i..j]) && Capitals(Normal(c))
  {
    var m, n := TrimFindsEnds(c);
    EndsAgree(c, i, j, m, n);
    UpperText(c[i..j], c[i..j]);
    if i < j {
      ToUpperAt(c[i..j]);
      UpperMeans(c[i], c[i]);
      UpperMeans(c[j - 1], c[j - 1]);
    }
  }

  /** Normalising identifies two currencies exactly when they mean the same. */
  lemma NormalIdentifies(c: string, d: string)
    ensures Normal(c) == Normal(d) <==> SameCurrency(c, d)
  {
    var i, j := TrimFindsEnds(c);
    var m, n := TrimFindsEnds(d);
    UpperText(c[i..j], d[m..n]);
    if x: nat, y: nat, z: nat, w: nat :| TrimsTo(c, x, y) && TrimsTo(d, z, w) && SameText(c[x..y], d[z..w]) {
      EndsAgree(c, i, j, x, y);
      EndsAgree(d, m, n, z, w);
    }
  }

  /** A key is refused exactly when it is blank or longer than 200 characters. */
  lemma KeyRefused(key: string)
    ensures !ValidKey(key) <==> Blank(key) || |key| > 200
  {
    var i, j := TrimFindsEnds(key);
    if i < j {
      assert !White(key[i]);
    }
  }

  /** A currency has three characters between its white space. */
  ghost predicate ThreeCharacters(currency: string)
  {
    exists i: nat, j: nat :: TrimsTo(currency, i, j) && j - i == 3
  }

  /** A payment request is refused exactly for its key, its amount or its currency. */
  lemma PaymentRefused(amount: Int64, currency: string, key: string)
    ensures !ValidPayment(amount, currency, key)
            <==> Blank(key) || |key| > 200 || amount <= 0 || !ThreeCharacters(currency)
  {
    KeyRefused(key);
    var i, j := TrimFindsEnds(currency);
    if m: nat, n: nat :| TrimsTo(currency, m, n) && n - m == 3 {
      EndsAgree(currency, i, j, m, n);
    }
  }
}
