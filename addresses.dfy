/** Mail addresses as the verifier builds them: `local@domain`, and the
    random catch-all address of GenerateRandomEmail. */
module Addresses {

  /** Number of random characters in the catch-all local part. */
  const RandomLength := 32

  /** `fmt.Sprintf("%s@%s", local, domain)`. */
  function Address(local: string, domain: string): (a: string)
    ensures |a| == |local| + 1 + |domain|
    ensures a[..|local|] == local && a[|local|] == '@' && a[|local| + 1..] == domain
  {
    local + "@" + domain
  }

  /** Position of the first '@' in `s`, or |s| when there is none. */
  function FirstAt(s: string): (k: nat)
    ensures k <= |s|
    ensures forall j :: 0 <= j < k ==> s[j] != '@'
    ensures k < |s| ==> s[k] == '@'
  {
    if s == [] then 0
    else if s[0] == '@' then 0
    else 1 + FirstAt(s[1..])
  }

  /** Splits an address at its first '@' into local part and domain. */
  function Split(a: string): (string, string)
  {
    var k := FirstAt(a);
    if k < |a| then (a[..k], a[k + 1..]) else (a, "")
  }

  /** An address whose local part holds no '@' splits back into its parts. */
  lemma SplitAddress(local: string, domain: string)
    requires '@' !in local
    ensures Split(Address(local, domain)) == (local, domain)
  {
  }

  /** The random index sequence drawn by `rand.Intn(len(alphabet))`: one draw
      per character, each in range. */
  predicate ValidDraws(alphabet: string, draws: seq<nat>)
  {
    && |alphabet| > 0
    && |draws| == RandomLength
    && forall i :: 0 <= i < |draws| ==> draws[i] < |alphabet|
  }

  function RandomLocalPart(alphabet: string, draws: seq<nat>): (s: string)
    requires ValidDraws(alphabet, draws)
    ensures |s| == RandomLength
    ensures forall i :: 0 <= i < RandomLength ==> s[i] in alphabet
  {
    seq(RandomLength, i requires 0 <= i < RandomLength => alphabet[draws[i]])
  }

  /** The address GenerateRandomEmail returns for these draws. */
  function RandomEmail(alphabet: string, draws: seq<nat>, domain: string): (e: string)
    requires ValidDraws(alphabet, draws)
    ensures |e| == RandomLength + 1 + |domain|
    ensures forall i :: 0 <= i < RandomLength ==> e[i] in alphabet
    ensures e[RandomLength] == '@'
    ensures e[RandomLength + 1..] == domain
  {
    Address(RandomLocalPart(alphabet, draws), domain)
  }

  /** When the alphabet has no '@', the random address splits back into its
      random local part and the domain, unchanged. */
  lemma RandomEmailSplits(alphabet: string, draws: seq<nat>, domain: string)
    requires ValidDraws(alphabet, draws) && '@' !in alphabet
    ensures Split(RandomEmail(alphabet, draws, domain)) == (RandomLocalPart(alphabet, draws), domain)
  {
    SplitAddress(RandomLocalPart(alphabet, draws), domain);
  }

  /** Fills a 32-character buffer from the alphabet, one draw per position,
      and appends `@domain`. */
  method GenerateRandomEmail(alphabet: string, draws: seq<nat>, domain: string) returns (email: string)
    requires ValidDraws(alphabet, draws)
    ensures email == RandomEmail(alphabet, draws, domain)
  {
    var r := new char[RandomLength];
    for i := 0 to RandomLength
      invariant forall j :: 0 <= j < i ==> r[j] == alphabet[draws[j]]
    {
      r[i] := alphabet[draws[i]];
    }
    assert r[..] == RandomLocalPart(alphabet, draws);
    email := Address(r[..], domain);
  }
}
