/** The example application's stand-in for password hashing: the "hash" is the reversed password. */
module Security {
  /** The characters of `s` in reverse order. */
  function Reverse(s: string): (r: string)
    ensures |r| == |s|
    ensures forall i :: 0 <= i < |s| ==> r[i] == s[|s| - 1 - i]
  {
    if s == [] then [] else Reverse(s[1..]) + [s[0]]
  }

  /** The example hash: reversal of the password's characters. */
  function Hash(password: string): (hashed: string)
    ensures |hashed| == |password|
    ensures forall i :: 0 <= i < |password| ==> hashed[i] == password[|password| - 1 - i]
  {
    Reverse(password)
  }

  /** A password matches a stored hash exactly when its reversal is that hash. */
  function Compare(password: string, hashedPassword: string): (matches: bool)
    ensures matches <==> (|hashedPassword| == |password|
      && forall i :: 0 <= i < |password| ==> hashedPassword[i] == password[|password| - 1 - i])
  {
    Reverse(password) == hashedPassword
  }

  /** Hashing twice gives the password back. */
  lemma HashInvolution(password: string)
    ensures Hash(Hash(password)) == password
  {
    var once := Hash(password);
    var twice := Hash(once);
    assert |twice| == |password|;
    forall i | 0 <= i < |password|
      ensures twice[i] == password[i]
    {
      assert twice[i] == once[|password| - 1 - i];
    }
  }

  /** A password always matches its own hash. */
  lemma CompareHashRoundTrip(password: string)
    ensures Compare(password, Hash(password))
  {
  }

  /** Only the password a hash came from matches it: different passwords have different hashes. */
  lemma HashInjective(p: string, q: string)
    requires Hash(p) == Hash(q)
    ensures p == q
  {
    HashInvolution(p);
    HashInvolution(q);
  }
}
