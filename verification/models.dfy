/**
 * The two records of src/tenant/models.py and the validation that
 * Tenant.save performs before anything is stored or provisioned.
 *
 * The check is `len(db_name.split(" ")) > 1`; Split below is Python's
 * str.split with an explicit one-character separator: every occurrence
 * of the separator cuts, so adjacent separators give empty pieces and the
 * empty string gives one empty piece.
 */
module Models {
  import opened Wrappers

  /** A client: the credentials of the tenant's first administrator. */
  datatype Client = Client(username: string, email: string, password: string)

  /** A tenant: its name, the database it gets, and an optional owning client. */
  datatype Tenant = Tenant(name: string, dbName: string, client: Option<Client>)

  /** Python's `s.split(sep)` for a one-character separator. */
  function Split(s: string, sep: char): (pieces: seq<string>)
    ensures |pieces| >= 1
    ensures forall i :: 0 <= i < |pieces| ==> sep !in pieces[i]
  {
    if s == [] then [[]]
    else
      var rest := Split(s[1..], sep);
      if s[0] == sep then [[]] + rest
      else [[s[0]] + rest[0]] + rest[1..]
  }

  /** Python's `sep.join(pieces)`. */
  function Join(pieces: seq<string>, sep: char): string
  {
    if pieces == [] then []
    else if |pieces| == 1 then pieces[0]
    else pieces[0] + [sep] + Join(pieces[1..], sep)
  }

  /** The number of times `c` occurs in `s`. */
  function Occurrences(s: string, c: char): nat
  {
    if s == [] then 0
    else (if s[0] == c then 1 else 0) + Occurrences(s[1..], c)
  }

  /** Tenant.save lets a db_name through when splitting it at " " gives one piece. */
  predicate PassesSpaceCheck(dbName: string)
  {
    |Split(dbName, ' ')| <= 1
  }

  /** Split and Join are inverse: the pieces put back together give the string. */
  lemma {:induction false} JoinSplit(s: string, sep: char)
    ensures Join(Split(s, sep), sep) == s
  {
    if s != [] {
      var rest := Split(s[1..], sep);
      JoinSplit(s[1..], sep);
      if s[0] == sep {
        assert ([[]] + rest)[1..] == rest;
        assert Join(Split(s, sep), sep) == [] + [sep] + Join(rest, sep);
      } else if |rest| == 1 {
        assert Join(Split(s, sep), sep) == [s[0]] + rest[0];
      } else {
        var pieces := [[s[0]] + rest[0]] + rest[1..];
        assert pieces[1..] == rest[1..];
        assert Join(rest, sep) == rest[0] + [sep] + Join(rest[1..], sep);
        assert Join(pieces, sep) == [s[0]] + rest[0] + [sep] + Join(rest[1..], sep);
      }
    }
  }

  /** Splitting gives one more piece than there are separators. */
  lemma {:induction false} SplitCount(s: string, sep: char)
    ensures |Split(s, sep)| == Occurrences(s, sep) + 1
  {
    if s != [] {
      SplitCount(s[1..], sep);
    }
  }

  /** A character occurs zero times exactly when it is not in the string. */
  lemma {:induction false} NoOccurrences(s: string, c: char)
    ensures Occurrences(s, c) == 0 <==> c !in s
  {
    if s != [] {
      NoOccurrences(s[1..], c);
      assert s == [s[0]] + s[1..];
    }
  }

  /**
   * Tenant.save rejects a db_name exactly when it holds at least one
   * space character; no other character is looked at.
   */
  lemma SpaceCheckExact(dbName: string)
    ensures PassesSpaceCheck(dbName) <==> ' ' !in dbName
  {
    SplitCount(dbName, ' ');
    NoOccurrences(dbName, ' ');
  }

  /** Other whitespace passes the check, and so does the empty name. */
  lemma OtherWhitespacePasses()
    ensures PassesSpaceCheck("tenant\tdb")
    ensures PassesSpaceCheck("tenant\ndb")
    ensures PassesSpaceCheck("")
    ensures !PassesSpaceCheck("bad name")
  {
    SpaceCheckExact("tenant\tdb");
    SpaceCheckExact("tenant\ndb");
    SpaceCheckExact("bad name");
    assert "bad name"[3] == ' ';
  }
}
