/** The broadcast service's error codes
    (`internal/broadcast/httpx/errors.go`): five `iota` constants counting
    up from 10000 and the table of their messages. */
module HttpxErrors {
  import opened Wrappers
  import opened ByteStrings

  /** `Code`, an `int`. */
  type Code = int

  /** The base the `iota` block starts from. */
  const CODE_BASE: Code := 10000

  /** The k-th constant of the block is `iota + 10000` with `iota == k`. */
  function Iota(k: nat): Code {
    k + CODE_BASE
  }

  const ERR_READ_MESSAGE: Code := Iota(0)
  const ERR_INCORRECT_METADATA: Code := Iota(1)
  const ERR_METADATA_NOT_MATCHED: Code := Iota(2)
  const ERR_FAILED_TO_CREATE_SUBSCRIBER: Code := Iota(3)
  const ERR_UNMARSHAL_JSON: Code := Iota(4)

  /** The declared codes, in declaration order. */
  const CODES: seq<Code> := [ERR_READ_MESSAGE, ERR_INCORRECT_METADATA, ERR_METADATA_NOT_MATCHED,
                             ERR_FAILED_TO_CREATE_SUBSCRIBER, ERR_UNMARSHAL_JSON]

  /** "Could not read message". */
  const READ_MESSAGE_TEXT: Bytes := [0x43, 0x6F, 0x75, 0x6C, 0x64, 0x20, 0x6E, 0x6F, 0x74, 0x20, 0x72, 0x65, 0x61,
                                     0x64, 0x20, 0x6D, 0x65, 0x73, 0x73, 0x61, 0x67, 0x65]
  /** "Incorrect edge device metadata". */
  const INCORRECT_METADATA_TEXT: Bytes := [0x49, 0x6E, 0x63, 0x6F, 0x72, 0x72, 0x65, 0x63, 0x74, 0x20, 0x65, 0x64,
                                           0x67, 0x65, 0x20, 0x64, 0x65, 0x76, 0x69, 0x63, 0x65, 0x20, 0x6D, 0x65,
                                           0x74, 0x61, 0x64, 0x61, 0x74, 0x61]
  /** "Metadata not matched with any existing session". */
  const METADATA_NOT_MATCHED_TEXT: Bytes := [0x4D, 0x65, 0x74, 0x61, 0x64, 0x61, 0x74, 0x61, 0x20, 0x6E, 0x6F, 0x74,
                                             0x20, 0x6D, 0x61, 0x74, 0x63, 0x68, 0x65, 0x64, 0x20, 0x77, 0x69, 0x74,
                                             0x68, 0x20, 0x61, 0x6E, 0x79, 0x20, 0x65, 0x78, 0x69, 0x73, 0x74, 0x69,
                                             0x6E, 0x67, 0x20, 0x73, 0x65, 0x73, 0x73, 0x69, 0x6F, 0x6E]
  /** "Failed to create subscriber for user". */
  const FAILED_TO_CREATE_SUBSCRIBER_TEXT: Bytes := [0x46, 0x61, 0x69, 0x6C, 0x65, 0x64, 0x20, 0x74, 0x6F, 0x20, 0x63,
                                                    0x72, 0x65, 0x61, 0x74, 0x65, 0x20, 0x73, 0x75, 0x62, 0x73, 0x63,
                                                    0x72, 0x69, 0x62, 0x65, 0x72, 0x20, 0x66, 0x6F, 0x72, 0x20, 0x75,
                                                    0x73, 0x65, 0x72]
  /** "Could not unmarshal JSON data". */
  const UNMARSHAL_JSON_TEXT: Bytes := [0x43, 0x6F, 0x75, 0x6C, 0x64, 0x20, 0x6E, 0x6F, 0x74, 0x20, 0x75, 0x6E, 0x6D,
                                       0x61, 0x72, 0x73, 0x68, 0x61, 0x6C, 0x20, 0x4A, 0x53, 0x4F, 0x4E, 0x20, 0x64,
                                       0x61, 0x74, 0x61]

  /** `Errors`. */
  const ERRORS: map<Code, Bytes> := map[
    ERR_READ_MESSAGE := READ_MESSAGE_TEXT,
    ERR_INCORRECT_METADATA := INCORRECT_METADATA_TEXT,
    ERR_METADATA_NOT_MATCHED := METADATA_NOT_MATCHED_TEXT,
    ERR_FAILED_TO_CREATE_SUBSCRIBER := FAILED_TO_CREATE_SUBSCRIBER_TEXT,
    ERR_UNMARSHAL_JSON := UNMARSHAL_JSON_TEXT]

  /** `Errors[c]` with the comma-ok form: the message of a declared code,
      and nothing for any other number. */
  function Message(c: Code): (r: Option<Bytes>)
    ensures r.Some? <==> c in CODES
    ensures r.Some? ==> r.value == ERRORS[c]
  {
    CodesAreKeys();
    if c in ERRORS then Some(ERRORS[c]) else None
  }

  /** The block starts at 10000 and each code is one more than the one
      declared before it, up to ErrUnmarshalJSON at 10004. */
  lemma {:induction false} CodesConsecutive()
    ensures |CODES| == 5 && CODES[0] == 10000 && CODES[4] == 10004
    ensures forall k | 0 <= k < |CODES| - 1 :: CODES[k + 1] == CODES[k] + 1
  {
  }

  /** No two constants share a value. */
  lemma {:induction false} CodesDistinct()
    ensures forall j, k | 0 <= j < k < |CODES| :: CODES[j] != CODES[k]
  {
  }

  /** Every declared code has a message and the table has no other key. */
  lemma {:induction false} CodesAreKeys()
    ensures ERRORS.Keys == set k | 0 <= k < |CODES| :: CODES[k]
  {
    var declared := set k | 0 <= k < |CODES| :: CODES[k];
    assert forall c | c in ERRORS.Keys :: c == CODES[0] || c == CODES[1] || c == CODES[2] || c == CODES[3] || c == CODES[4];
    assert CODES[0] in declared && CODES[1] in declared && CODES[2] in declared && CODES[3] in declared && CODES[4] in declared;
  }

  /** The message the table holds for ErrMetadataNotMatched. */
  lemma {:induction false} MetadataNotMatchedMessage()
    ensures Message(ERR_METADATA_NOT_MATCHED) == Some(METADATA_NOT_MATCHED_TEXT)
  {
  }
}
