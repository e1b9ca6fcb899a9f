/**
 * `ParseBasicAuth` of ci/utils.go: the credentials of an HTTP Basic
 * `Authorization` header value. Go strings are byte strings, so the model
 * works on bytes throughout.
 */
module Utils {
  import opened Base64

  const Colon: byte := 58

  /** `"Basic "`, the scheme prefix of an Authorization header value. */
  const BasicPrefix: seq<byte> := [66, 97, 115, 105, 99, 32]

  /**
   * `strings.Cut`: the text before and after the first separator and whether
   * there was one; without one, the whole text and an empty remainder.
   */
  function Cut(s: seq<byte>, sep: byte): (r: (seq<byte>, seq<byte>, bool))
    ensures r.2 <==> sep in s
    ensures r.2 ==> sep !in r.0 && r.0 + [sep] + r.1 == s
    ensures !r.2 ==> r.0 == s && r.1 == []
  {
    if s == [] then (s, [], false)
    else if s[0] == sep then ([], s[1..], true)
    else
      var (before, after, found) := Cut(s[1..], sep);
      assert s == [s[0]] + s[1..];
      ([s[0]] + before, after, found)
  }

  /** Cutting text built from a separator-free prefix, a separator and any rest gives the parts back. */
  lemma {:induction false} CutFirst(before: seq<byte>, sep: byte, after: seq<byte>)
    requires sep !in before
    ensures Cut(before + [sep] + after, sep) == (before, after, true)
  {
    var s := before + [sep] + after;
    if before == [] {
      assert s[0] == sep && s[1..] == after;
    } else {
      CutFirst(before[1..], sep, after);
      assert s[0] == before[0] && s[1..] == before[1..] + [sep] + after;
      assert before == [before[0]] + before[1..];
    }
  }

  /** What `ParseBasicAuth` returns: `(username, password, ok)`. */
  datatype Credentials = Credentials(username: seq<byte>, password: seq<byte>, ok: bool)

  /**
   * The first six bytes are dropped unchecked (the comparison with "Basic " is
   * commented out in the source); the rest must be standard Base64, and its
   * decoding is split at the first colon. Go panics on a shorter input.
   */
  function ParseBasicAuth(auth: seq<byte>): (r: Credentials)
    requires |auth| >= |BasicPrefix|
    ensures !r.ok ==> r.username == [] && r.password == []
    ensures r.ok <==> Decode(auth[6..]).Some? && Colon in Decode(auth[6..]).value
    ensures r.ok ==> Colon !in r.username && r.username + [Colon] + r.password == Decode(auth[6..]).value
  {
    match Decode(auth[|BasicPrefix|..])
    case None => Credentials([], [], false)
    case Some(c) =>
      var (username, password, ok) := Cut(c, Colon);
      if !ok then Credentials([], [], false) else Credentials(username, password, true)
  }

  /** The scheme is not looked at: any six leading bytes give the same credentials. */
  lemma SchemeUnchecked(scheme: seq<byte>, other: seq<byte>, rest: seq<byte>)
    requires |scheme| == |other| == |BasicPrefix|
    ensures ParseBasicAuth(scheme + rest) == ParseBasicAuth(other + rest)
  {
    assert (scheme + rest)[|BasicPrefix|..] == rest == (other + rest)[|BasicPrefix|..];
  }

  /**
   * Round trip: any six bytes followed by the Base64 encoding of
   * `user ":" password` parse back to that user and password, provided the
   * user contains no colon (the user-id of section 2 of RFC 7617).
   */
  lemma BasicAuthRoundTrip(prefix: seq<byte>, user: seq<byte>, password: seq<byte>)
    requires |prefix| == |BasicPrefix|
    requires Colon !in user
    ensures ParseBasicAuth(prefix + Encode(user + [Colon] + password)) == Credentials(user, password, true)
  {
    var auth := prefix + Encode(user + [Colon] + password);
    assert auth[|BasicPrefix|..] == Encode(user + [Colon] + password);
    DecodeEncode(user + [Colon] + password);
    CutFirst(user, Colon, password);
  }

  /** Encoding works group by group: a whole number of three-byte groups encodes on its own. */
  lemma {:induction false} EncodeAppend(a: seq<byte>, b: seq<byte>)
    requires |a| % 3 == 0
    ensures Encode(a + b) == Encode(a) + Encode(b)
    decreases |a|
  {
    if a != [] {
      EncodeAppend(a[3..], b);
      assert (a + b)[3..] == a[3..] + b;
      assert (a + b)[..3] == a[..3];
    } else {
      assert a + b == b;
    }
  }

  /** `"QWxhZGRpbjpvcGVuIHNlc2FtZQ=="` */
  const ExampleEncoded: seq<byte> :=
    [81, 87, 120, 104] + ([90, 71, 82, 112] + ([98, 106, 112, 118] + ([99, 71, 86, 117] + ([73, 72, 78, 108] + ([99, 50, 70, 116] + [90, 81, 61, 61])))))
  /** `"Aladdin"` */
  const ExampleUser: seq<byte> := [65, 108, 97, 100, 100, 105, 110]
  /** `"open sesame"` */
  const ExamplePassword: seq<byte> := [111, 112, 101, 110, 32, 115, 101, 115, 97, 109, 101]

  /** `"Aladdin:open sesame"` encodes as in the example. */
  lemma ExampleEncoding()
    ensures Encode(ExampleUser + [Colon] + ExamplePassword) == ExampleEncoded
  {
    ExampleText();
    ExampleGroupsJoined();
  }

  /** The encoding of the example text, three bytes at a time. */
  lemma ExampleGroupsJoined()
    ensures Encode([65, 108, 97] + ([100, 100, 105] + ([110, 58, 111] + ([112, 101, 110] + ([32, 115, 101] + ([115, 97, 109] + [101])))))) == ExampleEncoded
  {
    var g0, g1, g2, g3, g4, g5, g6 := [65, 108, 97], [100, 100, 105], [110, 58, 111], [112, 101, 110], [32, 115, 101], [115, 97, 109], [101];
    EncodeAppend(g5, g6);
    EncodeAppend(g4, g5 + g6);
    EncodeAppend(g3, g4 + (g5 + g6));
    EncodeAppend(g2, g3 + (g4 + (g5 + g6)));
    EncodeAppend(g1, g2 + (g3 + (g4 + (g5 + g6))));
    EncodeAppend(g0, g1 + (g2 + (g3 + (g4 + (g5 + g6)))));
    ExampleGroups();
  }

  /** `"Ala" "ddi" "n:o" "pen" " se" "sam" "e"` */
  lemma ExampleText()
    ensures ExampleUser + [Colon] + ExamplePassword == [65, 108, 97] + ([100, 100, 105] + ([110, 58, 111] + ([112, 101, 110] + ([32, 115, 101] + ([115, 97, 109] + [101])))))
  {
  }

  lemma ExampleGroups()
    ensures Encode([65, 108, 97]) == [81, 87, 120, 104]
    ensures Encode([100, 100, 105]) == [90, 71, 82, 112]
    ensures Encode([110, 58, 111]) == [98, 106, 112, 118]
    ensures Encode([112, 101, 110]) == [99, 71, 86, 117]
    ensures Encode([32, 115, 101]) == [73, 72, 78, 108]
    ensures Encode([115, 97, 109]) == [99, 50, 70, 116]
    ensures Encode([101]) == [90, 81, 61, 61]
  {
  }

  /** The example in the doc comment of `ParseBasicAuth`. */
  lemma DocExample()
    ensures ParseBasicAuth(BasicPrefix + ExampleEncoded) == Credentials(ExampleUser, ExamplePassword, true)
  {
    ExampleEncoding();
    BasicAuthRoundTrip(BasicPrefix, ExampleUser, ExamplePassword);
  }
}
