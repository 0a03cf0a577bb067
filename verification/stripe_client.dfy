/**
 * The server-side provider client: the secret-key format check and the
 * choice between a real client and the empty placeholder used when the
 * key is missing or malformed.
 */
module StripeClient {
  import opened Wrappers
  import opened Text

  /** The two key kinds (standard `sk`, restricted `rk`) and the two modes (`live`, `test`). */
  predicate IsKeyKind(s: string)
  {
    s == "sk" || s == "rk"
  }

  predicate IsKeyMode(s: string)
  {
    s == "live" || s == "test"
  }

  /** The pattern `^(sk|rk)_(live|test)_`, read left to right. */
  predicate MatchesKeyPattern(k: string)
  {
    && |k| >= 8
    && IsKeyKind(k[..2]) && k[2] == '_'
    && IsKeyMode(k[3..7]) && k[7] == '_'
  }

  /**
   * `isValidStripeKey`: an absent or empty key is invalid; otherwise the key must
   * begin with one of the four accepted prefixes (case-sensitive).
   */
  function IsValidStripeKey(key: Option<string>): (ok: bool)
    ensures ok <==> key.Some? && HasAcceptedPrefix(key.value)
  {
    match key
    case None => false
    case Some(k) =>
      PatternIsPrefixChoice(k);
      k != "" && MatchesKeyPattern(k)
  }

  /** The four accepted prefixes spelled out, the reference the pattern is checked against. */
  predicate HasAcceptedPrefix(k: string)
  {
    || StartsWith(k, "sk_live_") || StartsWith(k, "sk_test_")
    || StartsWith(k, "rk_live_") || StartsWith(k, "rk_test_")
  }

  lemma PatternIsPrefixChoice(k: string)
    ensures MatchesKeyPattern(k) <==> HasAcceptedPrefix(k)
  {
    if |k| >= 8 {
      assert "sk_live_" == "sk" + "_" + "live" + "_";
      assert "sk_test_" == "sk" + "_" + "test" + "_";
      assert "rk_live_" == "rk" + "_" + "live" + "_";
      assert "rk_test_" == "rk" + "_" + "test" + "_";
      PiecesPrefix(k, "sk", "live");
      PiecesPrefix(k, "sk", "test");
      PiecesPrefix(k, "rk", "live");
      PiecesPrefix(k, "rk", "test");
    }
  }

  /** `k` starts with `kind_mode_` exactly when the pattern's pieces of `k` are `kind`, `_`, `mode`, `_`. */
  lemma PiecesPrefix(k: string, kind: string, mode: string)
    requires |k| >= 8 && |kind| == 2 && |mode| == 4
    ensures StartsWith(k, kind + "_" + mode + "_") <==> k[..2] == kind && k[2] == '_' && k[3..7] == mode && k[7] == '_'
  {
    var p, q := k[..8], kind + "_" + mode + "_";
    assert p[..2] == k[..2] && p[2] == k[2] && p[3..7] == k[3..7] && p[7] == k[7];
    assert q[..2] == kind && q[2] == '_' && q[3..7] == mode && q[7] == '_';
    EightSplit(p, q);
  }

  /** Two eight-character strings are equal exactly when the pattern's four pieces are. */
  lemma EightSplit(p: string, q: string)
    requires |p| == 8 && |q| == 8
    ensures p == q <==> p[..2] == q[..2] && p[2] == q[2] && p[3..7] == q[3..7] && p[7] == q[7]
  {
    if p[..2] == q[..2] && p[2] == q[2] && p[3..7] == q[3..7] && p[7] == q[7] {
      forall i | 0 <= i < 8
        ensures p[i] == q[i]
      {
        if i < 2 {
          assert p[i] == p[..2][i] && q[i] == q[..2][i];
        } else if 3 <= i < 7 {
          assert p[i] == p[3..7][i - 3] && q[i] == q[3..7][i - 3];
        }
      }
    }
  }

  /** Only the prefix matters: anything may follow a valid prefix. */
  lemma ValidKeyExtends(k: string, suffix: string)
    requires IsValidStripeKey(Some(k))
    ensures IsValidStripeKey(Some(k + suffix))
  {
    assert (k + suffix)[..8] == k[..8];
  }

  /** Publishable keys, bare `sk_` and upper-case prefixes are all refused; so are absent and empty keys. */
  lemma RejectedKeys()
    ensures !IsValidStripeKey(None)
    ensures !IsValidStripeKey(Some(""))
    ensures !IsValidStripeKey(Some("pk_live_abc"))
    ensures !IsValidStripeKey(Some("sk_abc"))
    ensures !IsValidStripeKey(Some("SK_live_abc"))
  {
    assert "pk_live_abc"[..2] == "pk";
    assert "SK_live_abc"[..2] == "SK";
  }

  /** The four accepted prefixes, each followed by key material. */
  lemma AcceptedKeys()
    ensures IsValidStripeKey(Some("sk_live_abc"))
    ensures IsValidStripeKey(Some("sk_test_abc"))
    ensures IsValidStripeKey(Some("rk_live_abc"))
    ensures IsValidStripeKey(Some("rk_test_abc"))
  {
    assert "sk_live_abc"[..8] == "sk_live_";
    assert "sk_test_abc"[..8] == "sk_test_";
    assert "rk_live_abc"[..8] == "rk_live_";
    assert "rk_test_abc"[..8] == "rk_test_";
  }

  /** The exported client: a live client holding the secret key, or the empty placeholder. */
  datatype Client = Live(secretKey: string) | Placeholder

  /** The module-level `stripe` constant, built from the `STRIPE_SECRET_KEY` setting. */
  function MakeClient(secretKey: Option<string>): (c: Client)
    ensures c.Live? <==> IsValidStripeKey(secretKey)
    ensures c.Live? ==> secretKey == Some(c.secretKey)
  {
    match secretKey
    case Some(k) => if k != "" && IsValidStripeKey(secretKey) then Live(k) else Placeholder
    case None => Placeholder
  }
}
