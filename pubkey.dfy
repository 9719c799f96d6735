/** The public-key helper (`internal/pkg/pubkey/ed25519.go`): the content
    of `~/.ssh/id_ed25519.pub` is split at every space byte and the middle
    of exactly three fields is the key. */
module PubKey {
  import opened ByteStrings

  /** "invalid id_ed25519 pub key". */
  const INVALID_PUB_KEY: Bytes := [0x69, 0x6E, 0x76, 0x61, 0x6C, 0x69, 0x64, 0x20, 0x69, 0x64, 0x5F, 0x65, 0x64, 0x32,
                                   0x35, 0x35, 0x31, 0x39, 0x20, 0x70, 0x75, 0x62, 0x20, 0x6B, 0x65, 0x79]

  /** The number of space bytes in `s`. */
  function Spaces(s: Bytes): nat {
    if s == [] then 0 else (if s[0] == SPACE then 1 else 0) + Spaces(s[1..])
  }

  predicate NoSpace(s: Bytes) {
    forall i | 0 <= i < |s| :: s[i] != SPACE
  }

  /** `bytes.Split(s, []byte(" "))`: one field more than there are spaces,
      none of them holding a space; two adjacent spaces give an empty
      field between them. */
  function Split(s: Bytes): (r: seq<Bytes>)
    ensures |r| == Spaces(s) + 1
    ensures forall i | 0 <= i < |r| :: NoSpace(r[i])
  {
    if s == [] then [[]]
    else if s[0] == SPACE then [[]] + Split(s[1..])
    else
      var rest := Split(s[1..]);
      [[s[0]] + rest[0]] + rest[1..]
  }

  /** The fields put back together with single spaces. */
  function Join(fields: seq<Bytes>): Bytes
    requires |fields| >= 1
  {
    if |fields| == 1 then fields[0] else fields[0] + [SPACE] + Join(fields[1..])
  }

  lemma {:induction false} JoinPrefix(c: byte, fields: seq<Bytes>)
    requires |fields| >= 1
    ensures Join([[c] + fields[0]] + fields[1..]) == [c] + Join(fields)
  {
    var g := [[c] + fields[0]] + fields[1..];
    assert g[0] == [c] + fields[0] && g[1..] == fields[1..];
    if |fields| > 1 {
      assert Join(g) == ([c] + fields[0]) + [SPACE] + Join(fields[1..]);
      assert ([c] + fields[0]) + [SPACE] + Join(fields[1..]) == [c] + (fields[0] + [SPACE] + Join(fields[1..]));
    }
  }

  /** Splitting loses nothing: joining the fields gives the content back. */
  lemma {:induction false} JoinSplit(s: Bytes)
    ensures Join(Split(s)) == s
  {
    if s == [] {
    } else if s[0] == SPACE {
      JoinSplit(s[1..]);
      assert ([[]] + Split(s[1..]))[1..] == Split(s[1..]);
      assert s == [SPACE] + s[1..];
    } else {
      JoinSplit(s[1..]);
      JoinPrefix(s[0], Split(s[1..]));
      assert s == [s[0]] + s[1..];
    }
  }

  /** A field without spaces in front of the rest extends the rest's first
      field. */
  lemma {:induction false} SplitField(f: Bytes, rest: Bytes)
    requires NoSpace(f)
    ensures Split(f + rest) == [f + Split(rest)[0]] + Split(rest)[1..]
  {
    var r := Split(rest);
    if f == [] {
      assert f + rest == rest && f + r[0] == r[0];
      assert r == [r[0]] + r[1..];
    } else {
      SplitField(f[1..], rest);
      var t := Split(f[1..] + rest);
      assert t[0] == f[1..] + r[0] && t[1..] == r[1..];
      assert (f + rest)[0] == f[0] && (f + rest)[1..] == f[1..] + rest;
      assert Split(f + rest) == [[f[0]] + t[0]] + t[1..];
      assert [f[0]] + (f[1..] + r[0]) == f + r[0];
    }
  }

  /** Fields without spaces, joined with single spaces, split back into
      exactly those fields. */
  lemma {:induction false} SplitJoin(fields: seq<Bytes>)
    requires |fields| >= 1
    requires forall i | 0 <= i < |fields| :: NoSpace(fields[i])
    ensures Split(Join(fields)) == fields
  {
    if |fields| == 1 {
      SplitField(fields[0], []);
      assert fields[0] + [] == fields[0];
      assert fields == [fields[0]];
    } else {
      SplitJoin(fields[1..]);
      var rest := [SPACE] + Join(fields[1..]);
      assert Join(fields) == fields[0] + rest;
      SplitField(fields[0], rest);
      assert rest[0] == SPACE && rest[1..] == Join(fields[1..]);
      var r := Split(rest);
      assert r == [[]] + fields[1..];
      assert r[0] == [] && r[1..] == fields[1..];
      assert fields[0] + [] == fields[0];
      assert fields == [fields[0]] + fields[1..];
    }
  }

  /** How reading the key ends: the key, or a panic with its message (a
      failing user lookup or file read panics with that error). */
  datatype Outcome = Key(key: Bytes) | Panicked(message: Bytes)

  /** What `user.Current` and `os.ReadFile` give: an error message, or the
      file's content. */
  datatype KeyFile = ReadFailed(err: Bytes) | Content(data: Bytes)

  /** `Ed25519PubKey`, after the file read. */
  function Ed25519PubKey(file: KeyFile): (r: Outcome)
    ensures file.ReadFailed? ==> r == Panicked(file.err)
    ensures file.Content? ==> (r.Key? <==> Spaces(file.data) == 2)
    ensures file.Content? && Spaces(file.data) != 2 ==> r == Panicked(INVALID_PUB_KEY)
    ensures r.Key? ==> NoSpace(r.key) && r.key == Split(file.data)[1]
  {
    match file
    case ReadFailed(err) => Panicked(err)
    case Content(data) =>
      var fields := Split(data);
      if |fields| != 3 then Panicked(INVALID_PUB_KEY) else Key(fields[1])
  }

  /** A well-formed "type key comment" line yields its key, whatever the
      key type and the comment (the comment keeps the file's trailing
      newline); a non-empty key field gives a non-empty result. */
  lemma {:induction false} WellFormedLine(keyType: Bytes, key: Bytes, comment: Bytes)
    requires NoSpace(keyType) && NoSpace(key) && NoSpace(comment)
    ensures Ed25519PubKey(Content(keyType + [SPACE] + key + [SPACE] + comment)) == Key(key)
    ensures |key| > 0 ==> Ed25519PubKey(Content(keyType + [SPACE] + key + [SPACE] + comment)).key != []
  {
    var fields := [keyType, key, comment];
    assert fields[1..] == [key, comment] && fields[1..][1..] == [comment];
    assert Join([key, comment]) == key + [SPACE] + comment;
    assert Join(fields) == keyType + [SPACE] + key + [SPACE] + comment;
    SplitJoin(fields);
  }

  /** Adjacent spaces are not merged: "type  comment" splits into three
      fields and the key read is empty. */
  lemma {:induction false} DoubleSpaceGivesEmptyKey(keyType: Bytes, comment: Bytes)
    requires NoSpace(keyType) && NoSpace(comment)
    ensures Ed25519PubKey(Content(keyType + [SPACE, SPACE] + comment)) == Key([])
  {
    assert keyType + [SPACE, SPACE] + comment == keyType + [SPACE] + [] + [SPACE] + comment;
    WellFormedLine(keyType, [], comment);
  }

  /** A comment with a space in it makes four fields, and so a panic. */
  lemma {:induction false} SpacedCommentPanics(keyType: Bytes, key: Bytes, c1: Bytes, c2: Bytes)
    requires NoSpace(keyType) && NoSpace(key) && NoSpace(c1) && NoSpace(c2)
    ensures Ed25519PubKey(Content(keyType + [SPACE] + key + [SPACE] + c1 + [SPACE] + c2)) == Panicked(INVALID_PUB_KEY)
  {
    var fields := [keyType, key, c1, c2];
    assert fields[1..] == [key, c1, c2] && [key, c1, c2][1..] == [c1, c2] && [c1, c2][1..] == [c2];
    assert Join([c1, c2]) == c1 + [SPACE] + c2;
    assert Join([key, c1, c2]) == key + [SPACE] + c1 + [SPACE] + c2;
    assert Join(fields) == keyType + [SPACE] + key + [SPACE] + c1 + [SPACE] + c2;
    SplitJoin(fields);
  }
}
