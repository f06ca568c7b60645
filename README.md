# AppendResult of jgroups-raft, in Dafny

A Raft follower answers each AppendEntries request with an `AppendResult`. The
object has three mutable fields: `success`, `index` and `non_matching_term`
(`nonMatchingTerm` here). It has three constructors, getters and `toString`.
Its binary form, written by `writeTo` and read back by `readFrom`, carries
`success` and then `index`. The term is deliberately not sent, so decoding
into an object leaves that object's term as it was.

The model has three modules:

- `Wire` (wire.dfy): Java's `int` as the newtype `int32`, and a stream of
  abstract tokens (`WBool(b)`, `WInt(i)`), one per written value. `DataOutput`
  and `DataInput` are classes over that stream. Their reads are specified by
  the pure decoders `DecodeBoolean` and `DecodeInt`. Reading past the end, or
  finding the other kind of token, is a `DecodeError`.
- `JavaText` (java_text.dfy): how Java's string concatenation renders a
  boolean and an int. Each rendering has a parser that inverts it, with the
  decimal round trip proved by induction.
- `Raft` (append_result.dfy): the `AppendResult` class, with its fields as the
  value `Fields`. Also the pure specification functions `Encode`, `Decode` and
  `ReadInto` and the lemmas relating them.

`readFrom` declares `throws Exception`. Here it returns an `Outcome` instead:
`Done`, or `Threw(error)`. Java stores `success` before it reads the int. So
when the int is missing, the model leaves `success` overwritten and `index`
unchanged, as Java does.

The class comment on `index` (AppendResult.java:18-20) sets no sign on it,
and the code accepts any `int` for `index` and for the term alike; so does
the model. `readFrom` keeps the receiving object's term. That term is 0 only
when the receiver is a fresh default object, which is what
`ReadIntoRoundTrip` and `WireRoundTrip` state.

## Model

| member | source | states |
|---|---|---|
| Wire.DecodeBoolean | src/org/jgroups/protocols/raft/AppendResult.java:45 | a boolean read succeeds exactly when the next token is a boolean; the input is then that token followed by the returned rest; it fails with end-of-input exactly when the input is empty |
| Wire.DecodeInt | src/org/jgroups/protocols/raft/AppendResult.java:46 | an int read succeeds exactly when the next token is an int; the input is then that token followed by the returned rest; it fails with end-of-input exactly when the input is empty |
| Wire.DataOutput.WriteBoolean | src/org/jgroups/protocols/raft/AppendResult.java:40 | appends exactly one boolean token to what was written |
| Wire.DataOutput.WriteInt | src/org/jgroups/protocols/raft/AppendResult.java:41 | appends exactly one int token; the byte layout is abstracted |
| Wire.DataInput.ReadBoolean | src/org/jgroups/protocols/raft/AppendResult.java:45 | returns what DecodeBoolean gives and consumes the token only on success |
| Wire.DataInput.ReadInt | src/org/jgroups/protocols/raft/AppendResult.java:46 | returns what DecodeInt gives and consumes the token only on success |
| JavaText.NatToDecimal | src/org/jgroups/protocols/raft/AppendResult.java:62 | the decimal text of the index is a non-empty string of digits that starts with '0' only for zero |
| JavaText.DecimalRoundTrip | src/org/jgroups/protocols/raft/AppendResult.java:62 | reading the decimal digits back gives the number that was rendered |
| JavaText.IntToString | src/org/jgroups/protocols/raft/AppendResult.java:62 | the int's text parses back to that int, and it starts with '-' exactly when the int is negative |
| JavaText.BoolToString | src/org/jgroups/protocols/raft/AppendResult.java:62 | a boolean renders as "true" or "false", and as "true" exactly when it is true |
| Raft.Decode | src/org/jgroups/protocols/raft/AppendResult.java:44-47 | decoding succeeds exactly when the stream starts with a boolean and then an int; it returns those two values, in that order, and the tokens after them |
| Raft.Encode | src/org/jgroups/protocols/raft/AppendResult.java:39-42 | the encoding of any fields decodes to their success and index and nothing else; the term has no place in the message |
| Raft.ReadInto | src/org/jgroups/protocols/raft/AppendResult.java:44-47 | the term is never changed; the read completes exactly when a full message is present, and then success and index take the decoded values; a missing or wrong first token changes no field and consumes nothing; a missing or wrong int after a good boolean leaves success overwritten and index unchanged |
| Raft.DecodeOnlyEncodings | src/org/jgroups/protocols/raft/AppendResult.java:39-47 | a decode returns message m with rest r if and only if the stream is the encoding of m followed by r |
| Raft.DecodeAfterEncode | src/org/jgroups/protocols/raft/AppendResult.java:39-47 | an encoded result followed by more tokens decodes to its success and index and leaves exactly the following tokens |
| Raft.ReadIntoRoundTrip | src/org/jgroups/protocols/raft/AppendResult.java:26-47 | writing any result and reading it into a default object completes; the object then holds the same success and index and term 0, and the following tokens are left unread |
| Raft.RoundTripExactIff | src/org/jgroups/protocols/raft/AppendResult.java:39-47 | the round trip restores all three fields if and only if the term was 0 |
| Raft.RenderRoundTrip | src/org/jgroups/protocols/raft/AppendResult.java:61-63 | the toString text parses back to exactly its success flag and index |
| Raft.AppendResult.constructor | src/org/jgroups/protocols/raft/AppendResult.java:26 | the no-argument constructor leaves success false, index 0 and term 0 |
| Raft.AppendResult.Of | src/org/jgroups/protocols/raft/AppendResult.java:28-31 | the two-argument constructor sets success and index as given, and the term is 0 |
| Raft.AppendResult.OfConflict | src/org/jgroups/protocols/raft/AppendResult.java:33-37 | the three-argument constructor sets all three fields as given, with no range check |
| Raft.AppendResult.WriteTo | src/org/jgroups/protocols/raft/AppendResult.java:39-42 | appends the encoding of the object's fields, a boolean and then an int, to the stream; changes no field of the object |
| Raft.AppendResult.ReadFrom | src/org/jgroups/protocols/raft/AppendResult.java:44-47 | the object's new fields, the unread input and the outcome are those ReadInto gives for the old fields and old input; the term is unchanged |
| Raft.AppendResult.IsSuccess | src/org/jgroups/protocols/raft/AppendResult.java:49-51 | returns success; a reads-only function, so no field changes |
| Raft.AppendResult.GetIndex | src/org/jgroups/protocols/raft/AppendResult.java:53-55 | returns index; changes no field |
| Raft.AppendResult.GetMatchingTerm | src/org/jgroups/protocols/raft/AppendResult.java:57-59 | returns the non-matching term, despite its name; changes no field |
| Raft.AppendResult.ToString | src/org/jgroups/protocols/raft/AppendResult.java:61-63 | the text determines success and index: parsing it gives back exactly those two |
| Raft.ToStringIgnoresOnlyTerm | src/org/jgroups/protocols/raft/AppendResult.java:61-63 | two results print the same text if and only if they agree on success and index, so the term never shows |
| Raft.WireRoundTrip | src/org/jgroups/protocols/raft/AppendResult.java:39-47 | writing an object to a stream and reading the stream into a new default object completes without error and uses up the whole stream; it copies success and index and gives term 0; the copy equals the original field for field if and only if the original's term is 0 |

## Left out

- The byte layout of the int encoder and decoder (`Bits.writeInt`, `Bits.readInt`) is not part of this model. An int is one opaque token.
- Java I/O failures other than running out of input (`EOFException`) are not modelled. A failed read is modelled as consuming nothing. A partly read multi-byte int is below the token level.
- Raft.ReadInto: a token of the wrong kind makes the read fail only because the wire is modelled as tokens. Java never rejects what it reads: `readBoolean` takes any byte (nonzero meaning true) and `Bits.readInt` reads whatever bytes follow, so on such input Java misreads the bytes instead of throwing.
- Wire.DecodeBoolean: fails on an int token only because of the token abstraction; Java's `readBoolean` would read that token's first byte as the flag.
- Wire.DecodeInt: fails on a boolean token only because of the token abstraction; Java's `Bits.readInt` would read that byte as part of an int.
- The `Streamable` interface is a framework hook with no logic here.
- The follower's AppendEntries evaluation and the leader's handling of the result use this class. They are not part of this model.
- The meaning of `index == 0` ("no log, install a snapshot") is only a comment in the class. No invariant ties it to `success`, because the class enforces none.
