/** Declared sizes and digests, and the running verifier that checks a byte stream against them. */
module IntegrityCheck {
  import opened Prelude

  /** The digest functions, as hexadecimal text; nothing is assumed about them. */
  datatype Hashes = Hashes(sha1: Bytes -> string, sha512: Bytes -> string)

  datatype Algorithm = Sha1 | Sha512

  datatype Integrity = Integrity(size: Option<nat>, sha1: Option<string>, sha512: Option<string>)

  datatype IntegrityError =
    | Size(expected: nat, actual: nat)
    | Digest(algorithm: Algorithm, wanted: string, computed: string)

  function LowerAscii(c: char): char {
    if 'A' <= c <= 'Z' then c - 'A' + 'a' else c
  }

  predicate EqIgnoreAsciiCase(a: string, b: string) {
    |a| == |b| && forall i :: 0 <= i < |a| ==> LowerAscii(a[i]) == LowerAscii(b[i])
  }

  predicate SameLetter(a: char, b: char) {
    a == b || ('A' <= a <= 'Z' && b as int == a as int + 32) || ('A' <= b <= 'Z' && a as int == b as int + 32)
  }

  /** Equal letter by letter, but for letters `A` to `Z` and their lower-case forms, 32 further on. */
  lemma IgnoringCase(a: string, b: string)
    ensures EqIgnoreAsciiCase(a, b) <==> |a| == |b| && forall i :: 0 <= i < |a| ==> SameLetter(a[i], b[i])
  {
    forall c, d
      ensures LowerAscii(c) == LowerAscii(d) <==> SameLetter(c, d)
    {
    }
  }

  function Compare(algorithm: Algorithm, expected: string, actual: string): Result<(), IntegrityError> {
    if EqIgnoreAsciiCase(expected, actual) then Ok(()) else Err(Digest(algorithm, expected, actual))
  }

  /** What the declaration says of a file's content. */
  predicate Meets(hashes: Hashes, integrity: Integrity, bytes: Bytes) {
    && (integrity.size.Some? ==> integrity.size.value == |bytes|)
    && (integrity.sha1.Some? ==> EqIgnoreAsciiCase(integrity.sha1.value, hashes.sha1(bytes)))
    && (integrity.sha512.Some? ==> EqIgnoreAsciiCase(integrity.sha512.value, hashes.sha512(bytes)))
  }

  /** The verdict on a whole stream: size first, then SHA-1, then SHA-512. */
  function Judge(hashes: Hashes, integrity: Integrity, bytes: Bytes): (r: Result<nat, IntegrityError>)
    ensures r.Ok? <==> Meets(hashes, integrity, bytes)
    ensures r.Ok? ==> r.value == |bytes|
    ensures r.Err? && r.error.Size? <==> integrity.size.Some? && integrity.size.value != |bytes|
    ensures r.Err? && r.error.Size? ==> integrity.size == Some(r.error.expected) && r.error.actual == |bytes|
    ensures r.Err? && r.error.Digest? && r.error.algorithm.Sha1? ==>
              integrity.sha1 == Some(r.error.wanted) && r.error.computed == hashes.sha1(bytes)
              && !EqIgnoreAsciiCase(r.error.wanted, r.error.computed)
    ensures r.Err? && r.error.Digest? && r.error.algorithm.Sha512? ==>
              integrity.sha512 == Some(r.error.wanted) && r.error.computed == hashes.sha512(bytes)
              && !EqIgnoreAsciiCase(r.error.wanted, r.error.computed)
              && (integrity.sha1.Some? ==> EqIgnoreAsciiCase(integrity.sha1.value, hashes.sha1(bytes)))
  {
    if integrity.size.Some? && integrity.size.value != |bytes| then
      Err(Size(integrity.size.value, |bytes|))
    else if integrity.sha1.Some? && Compare(Sha1, integrity.sha1.value, hashes.sha1(bytes)).Err? then
      Err(Compare(Sha1, integrity.sha1.value, hashes.sha1(bytes)).error)
    else if integrity.sha512.Some? && Compare(Sha512, integrity.sha512.value, hashes.sha512(bytes)).Err? then
      Err(Compare(Sha512, integrity.sha512.value, hashes.sha512(bytes)).error)
    else
      Ok(|bytes|)
  }

  /** The running digests; a hasher's state is the bytes it has absorbed. */
  class Verifier {
    const expected: Integrity
    var sha1: Option<Bytes>
    var sha512: Option<Bytes>
    var observed: nat
    ghost var stream: Bytes

    ghost predicate Valid()
      reads this
    {
      && sha1 == (if expected.sha1.Some? then Some(stream) else None)
      && sha512 == (if expected.sha512.Some? then Some(stream) else None)
      && observed == |stream|
    }

    constructor (integrity: Integrity)
      ensures Valid() && expected == integrity && stream == []
    {
      expected := integrity;
      sha1 := if integrity.sha1.Some? then Some([]) else None;
      sha512 := if integrity.sha512.Some? then Some([]) else None;
      observed := 0;
      stream := [];
    }

    method Update(chunk: Bytes)
      requires Valid()
      modifies this
      ensures Valid() && stream == old(stream) + chunk
    {
      if sha1.Some? {
        sha1 := Some(sha1.value + chunk);
      }
      if sha512.Some? {
        sha512 := Some(sha512.value + chunk);
      }
      observed := observed + |chunk|;
      stream := stream + chunk;
    }

    method Finish(hashes: Hashes) returns (r: Result<nat, IntegrityError>)
      requires Valid()
      ensures r == Judge(hashes, expected, stream)
    {
      if expected.size.Some? && expected.size.value != observed {
        return Err(Size(expected.size.value, observed));
      }
      if sha1.Some? && expected.sha1.Some? {
        var verdict := Compare(Sha1, expected.sha1.value, hashes.sha1(sha1.value));
        if verdict.Err? {
          return Err(verdict.error);
        }
      }
      if sha512.Some? && expected.sha512.Some? {
        var verdict := Compare(Sha512, expected.sha512.value, hashes.sha512(sha512.value));
        if verdict.Err? {
          return Err(verdict.error);
        }
      }
      return Ok(observed);
    }
  }
}
