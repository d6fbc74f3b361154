/**
 * The provider ID codec: an instance name travels on its Node as "dvp://<name>", and
 * decoding accepts exactly the strings matching ^dvp://([0-9A-Za-z_-]+)$ (Go's `$` is the
 * end of the text, so nothing may follow the token).
 */
module ProviderId {
  import opened Wrappers
  import opened Errors

  const ProviderName: string := "dvp"

  /** Everything a provider ID carries before the instance name. */
  const Scheme: string := ProviderName + "://"

  predicate IsTokenChar(c: char) {
    ('0' <= c <= '9') || ('A' <= c <= 'Z') || ('a' <= c <= 'z') || c == '_' || c == '-'
  }

  /** A non-empty run of token characters: the capture group of the grammar. */
  predicate IsToken(s: string) {
    |s| > 0 && forall i :: 0 <= i < |s| ==> IsTokenChar(s[i])
  }

  /** The strings the grammar accepts: the scheme followed by a token and nothing else. */
  ghost predicate InGrammar(p: string) {
    exists id :: IsToken(id) && p == Scheme + id
  }

  function GetProviderID(instanceID: string): (p: string)
    ensures |p| == |Scheme| + |instanceID|
    ensures p[..|Scheme|] == Scheme && p[|Scheme|..] == instanceID
  {
    Scheme + instanceID
  }

  function ParseProviderID(providerID: string): (r: Result<string, Error>)
    ensures r.Success? ==> IsToken(r.value) && GetProviderID(r.value) == providerID
    ensures r.Failure? ==> r.error == InvalidProviderID(providerID)
  {
    if |providerID| > |Scheme| && providerID[..|Scheme|] == Scheme && IsToken(providerID[|Scheme|..])
    then Success(providerID[|Scheme|..])
    else Failure(InvalidProviderID(providerID))
  }

  /** Decoding an encoded token gives the token back. */
  lemma ParseOfGet(id: string)
    requires IsToken(id)
    ensures ParseProviderID(GetProviderID(id)) == Success(id)
  {
    var p := GetProviderID(id);
    assert p[|Scheme|..] == id;
  }

  /** Whatever decodes re-encodes to the very same string, and its token is non-empty. */
  lemma GetOfParse(p: string)
    requires ParseProviderID(p).Success?
    ensures GetProviderID(ParseProviderID(p).value) == p
    ensures |ParseProviderID(p).value| > 0
  {
  }

  /** Decoding succeeds on exactly the strings of the grammar. */
  lemma ParseAcceptsGrammar(p: string)
    ensures ParseProviderID(p).Success? <==> InGrammar(p)
  {
    if InGrammar(p) {
      var id :| IsToken(id) && p == Scheme + id;
      ParseOfGet(id);
    }
  }

  /** Encoding is injective, so two instances never share a provider ID. */
  lemma GetInjective(a: string, b: string)
    requires GetProviderID(a) == GetProviderID(b)
    ensures a == b
  {
    assert a == GetProviderID(a)[|Scheme|..];
  }

  /** A token has no character outside the token alphabet. */
  lemma NotTokenAt(s: string, i: nat)
    requires i < |s| && !IsTokenChar(s[i])
    ensures !IsToken(s)
  {
  }

  /** Strings with another scheme are rejected. */
  lemma ParseRejectsOtherSchemes()
    ensures ParseProviderID("aws://vm1").Failure?
    ensures ParseProviderID("dvp:/vm1").Failure?
    ensures ParseProviderID("xdvp://vm1").Failure?
  {
    assert "aws://vm1"[..|Scheme|] != Scheme by { assert "aws://vm1"[0] != Scheme[0]; }
    assert "dvp:/vm1"[..|Scheme|] != Scheme by { assert "dvp:/vm1"[5] != Scheme[5]; }
    assert "xdvp://vm1"[..|Scheme|] != Scheme by { assert "xdvp://vm1"[0] != Scheme[0]; }
  }

  /** An empty token, a "/" in the token and trailing text are rejected. */
  lemma ParseRejectsBadTokens()
    ensures ParseProviderID("dvp://").Failure?
    ensures ParseProviderID("dvp://ns/vm1").Failure?
    ensures ParseProviderID("dvp://vm1 ").Failure?
    ensures ParseProviderID("dvp://vm1\n").Failure?
  {
    NotTokenAt("dvp://ns/vm1"[|Scheme|..], 2);
    NotTokenAt("dvp://vm1 "[|Scheme|..], 3);
    NotTokenAt("dvp://vm1\n"[|Scheme|..], 3);
  }

  lemma ParseAcceptsExample()
    ensures ParseProviderID("dvp://worker-0_A") == Success("worker-0_A")
  {
    ParseOfGet("worker-0_A");
  }
}
