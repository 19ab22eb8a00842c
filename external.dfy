/** The boundary to the services' external collaborators, which the model takes as
    inputs: the document store's cursor, `json.loads`, and the replies of the
    generative-model wrapper together with the callers' check for a failure reply. */
module External {
  import opened PyBuiltins
  import opened PyJson

  /** What `collection.find(...).sort(...).limit(...)` yields once listed: the rows in the
      order the store ranked them, or the exception the driver raised (an unreachable
      server, a missing text index, ...). */
  datatype Cursor = Rows(rows: seq<Dict>) | StoreError(message: string)

  /** What `json.loads(text)` does: raise `JSONDecodeError`, return a value, or raise
      some other exception (a `RecursionError` on deeply nested input, say). */
  datatype Decoded = DecodeError | Value(value: Json) | DecodeCrash

  /** The two texts the services look for in a reply to detect a failure. */
  const ErrorMarker := "Error:"
  const UnableMarker := "Unable to generate response"

  /** The wrapper's reply when the model client cannot be initialised. */
  const InitFailureReply := ErrorMarker + " Failed to initialize Vertex AI"

  /** The wrapper's reply when the model returns no text. */
  const EmptyResponseReply := UnableMarker + " - empty response from model"

  /** The start of the wrapper's reply when the model call raises. */
  const ExceptionPrefix := "Error generating response"

  /** The wrapper's reply when the model call raises an exception with message `message`. */
  function ExceptionReply(message: string): string {
    ExceptionPrefix + ": " + message
  }

  /** The failure check the services perform on a reply, as written. */
  predicate IsFailureReplyAsWritten(reply: string) {
    Contains(reply, ErrorMarker) || Contains(reply, UnableMarker)
  }

  /** The only colon of an exception reply whose message has none follows the prefix. */
  lemma ExceptionReplyColon(message: string, j: int)
    requires ':' !in message
    requires 0 <= j < |ExceptionReply(message)| && ExceptionReply(message)[j] == ':'
    ensures j == 25
  {
    var a := ExceptionPrefix;
    var s := ExceptionReply(message);
    assert s == a + ": " + message;
    assert ':' !in a;
  }

  /** An exception message with no colon and no capital U, so that neither marker can
      appear in the wrapper's reply to it. */
  predicate SlipsPastCheck(message: string) {
    ':' !in message && 'U' !in message
  }

  /** An exception message on one line, without `[`, not ending in whitespace. */
  predicate OneLineMessage(message: string) {
    '\n' !in message && '[' !in message && message != "" && !IsSpace(message[|message| - 1])
  }

  /** The wrapper's reply to such a message is one stripped line without `[`. */
  lemma ExceptionReplyOneLine(message: string)
    requires OneLineMessage(message)
    ensures var s := ExceptionReply(message);
      '[' !in s && NoneOf(s, {'\n'}) && IsStripped(s) && s[0] == 'E'
  {
    var s := ExceptionReply(message);
    var a := ExceptionPrefix + ": ";
    assert s == a + message;
    assert '[' !in a && '\n' !in a;
    assert s[|s| - 1] == message[|message| - 1];
  }

  /** The check as written misses the reply the wrapper gives when the model call raises,
      whenever the exception's message has no colon and no capital U. */
  lemma {:induction false} SentinelMissesExceptionReply(message: string)
    requires SlipsPastCheck(message)
    ensures !IsFailureReplyAsWritten(ExceptionReply(message))
  {
    var a := ExceptionPrefix;
    var s := ExceptionReply(message);
    assert s == a + ": " + message;
    assert s[24] == a[24] == 'e';
    if Contains(s, ErrorMarker) {
      var i := ContainsWitness(s, ErrorMarker);
      assert s[i + 5] == s[i..i + 6][5] == ':';
      assert s[i + 4] == s[i..i + 6][4] == 'r';
      ExceptionReplyColon(message, i + 5);
      assert false;
    }
    assert 'U' !in a;
    assert 'U' !in s;
    if Contains(s, UnableMarker) {
      ContainsChar(s, UnableMarker, 0);
      assert false;
    }
  }

  /** For instance, a quota failure reported by the model client goes unnoticed. */
  lemma SentinelMissesQuotaFailure()
    ensures !IsFailureReplyAsWritten(ExceptionReply("quota exceeded"))
  {
    SentinelMissesExceptionReply("quota exceeded");
  }

  /** The failure check the services perform on a reply, corrected so that it also
      recognises the wrapper's reply to an exception. The services perform the check as
      written; this one is what they evidently intend. */
  predicate IsFailureReply(reply: string) {
    IsFailureReplyAsWritten(reply) || Contains(reply, ExceptionPrefix)
  }

  /** Every failure reply the wrapper can produce is recognised by the corrected check. */
  lemma WrapperFailuresRecognised(message: string)
    ensures IsFailureReply(InitFailureReply)
    ensures IsFailureReply(EmptyResponseReply)
    ensures IsFailureReply(ExceptionReply(message))
  {
    ContainsStart(ErrorMarker, " Failed to initialize Vertex AI");
    ContainsStart(UnableMarker, " - empty response from model");
    ContainsStart(ExceptionPrefix, ": " + message);
    assert ExceptionReply(message) == ExceptionPrefix + (": " + message);
  }

  /** The corrected check still flags every reply the check as written flags. */
  lemma FailureCheckExtendsAsWritten(reply: string)
    requires IsFailureReplyAsWritten(reply)
    ensures IsFailureReply(reply)
  {
  }

  /** `reply[reply.find('['):reply.rfind(']') + 1]`, the part of a reply both services
      hand to `json.loads`, when that slice is not empty. */
  function BracketSlice(reply: string): Option<string> {
    var start := Find(reply, '[');
    var end := RFind(reply, ']') + 1;
    if start != -1 && end > start then Some(reply[start..end]) else None
  }

  /** There is a slice exactly when some `[` comes before some `]`; it runs from the
      first `[` to the last `]`. */
  lemma BracketSliceSpec(reply: string)
    ensures var r := BracketSlice(reply);
      && (r.Some? <==> exists i, j :: 0 <= i < j < |reply| && reply[i] == '[' && reply[j] == ']')
      && (r.Some? ==> |r.value| >= 2 && r.value[0] == '[' && r.value[|r.value| - 1] == ']')
      && (r.Some? ==> exists i, j ::
            && 0 <= i < j < |reply| && reply[i] == '[' && reply[j] == ']'
            && r.value == reply[i..j + 1]
            && (forall k :: 0 <= k < i ==> reply[k] != '[')
            && (forall k :: j < k < |reply| ==> reply[k] != ']'))
  {
    var start := Find(reply, '[');
    var end := RFind(reply, ']') + 1;
    if exists i, j :: 0 <= i < j < |reply| && reply[i] == '[' && reply[j] == ']' {
      var i, j :| 0 <= i < j < |reply| && reply[i] == '[' && reply[j] == ']';
      assert start != -1 && start <= i;
      assert end - 1 >= j;
      assert BracketSlice(reply).value == reply[start..(end - 1) + 1];
    }
  }
}
