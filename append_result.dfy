/**
 * AppendResult: the answer a Raft follower sends the leader after an
 * AppendEntries request. Three mutable fields; a binary form that carries
 * `success` then `index` and leaves `non_matching_term` behind; a decoder
 * that overwrites two fields of an existing object; getters and toString.
 */
module Raft {
  import opened Wire
  import opened JavaText

  /** The three fields of an AppendResult, as a value. */
  datatype Fields = Fields(success: bool, index: int32, nonMatchingTerm: int32)

  /** Java's field defaults, which the no-argument constructor leaves in place. */
  const Default: Fields := Fields(false, 0, 0)

  /** What the wire form carries: `success` and `index`, never the term. */
  datatype Message = Message(success: bool, index: int32)

  /** Whether readFrom finished or threw (and with which error). */
  datatype Outcome = Done | Threw(error: DecodeError)

  /** The receiving object's fields, the unread tokens and the outcome after readFrom. */
  datatype ReadStep = ReadStep(fields: Fields, rest: seq<Token>, outcome: Outcome)

  /** Reads one message: a boolean, then an int. */
  function Decode(ts: seq<Token>): (r: Result<(Message, seq<Token>)>)
    ensures r.Ok? <==> |ts| >= 2 && ts[0].WBool? && ts[1].WInt?
    ensures r.Ok? ==> r.value == (Message(ts[0].b, ts[1].i), ts[2..])
  {
    match DecodeBoolean(ts)
    case Err(e) => Err(e)
    case Ok((b, afterBool)) =>
      match DecodeInt(afterBool)
      case Err(e) => Err(e)
      case Ok((i, rest)) => Ok((Message(b, i), rest))
  }

  /** The tokens writeTo emits for an object holding `f`. */
  function Encode(f: Fields): (ts: seq<Token>)
    ensures Decode(ts) == Ok((Message(f.success, f.index), []))
  {
    [WBool(f.success), WInt(f.index)]
  }

  /**
   * What readFrom does to an object holding `f` when the stream holds `ts`:
   * the boolean is stored as soon as it is read, so a failure on the int
   * leaves `success` overwritten and `index` as it was.
   */
  function ReadInto(f: Fields, ts: seq<Token>): (r: ReadStep)
    ensures r.fields.nonMatchingTerm == f.nonMatchingTerm
    ensures r.outcome.Done? <==> Decode(ts).Ok?
    ensures |ts| >= 2 && ts[0].WBool? && ts[1].WInt? ==>
      r == ReadStep(f.(success := ts[0].b, index := ts[1].i), ts[2..], Done)
    ensures ts == [] || !ts[0].WBool? ==> r.fields == f && r.rest == ts
    ensures |ts| >= 1 && ts[0].WBool? && (|ts| == 1 || !ts[1].WInt?) ==>
      r.fields == f.(success := ts[0].b) && r.rest == ts[1..]
  {
    match DecodeBoolean(ts)
    case Err(e) => ReadStep(f, ts, Threw(e))
    case Ok((b, afterBool)) =>
      var g := f.(success := b);
      match DecodeInt(afterBool)
      case Err(e) => ReadStep(g, afterBool, Threw(e))
      case Ok((i, rest)) => ReadStep(g.(index := i), rest, Done)
  }

  /** A successful decode consumed exactly the encoding of what it returned. */
  lemma DecodeOnlyEncodings(ts: seq<Token>, m: Message, rest: seq<Token>)
    ensures Decode(ts) == Ok((m, rest)) <==> ts == Encode(Fields(m.success, m.index, 0)) + rest
  {
  }

  /** A message followed by more tokens decodes to the message and leaves the rest. */
  lemma DecodeAfterEncode(f: Fields, rest: seq<Token>)
    ensures Decode(Encode(f) + rest) == Ok((Message(f.success, f.index), rest))
  {
  }

  /**
   * Round trip: what writeTo emits, read into a fresh object, gives back
   * `success` and `index`; the term is the fresh object's 0.
   */
  lemma ReadIntoRoundTrip(f: Fields, rest: seq<Token>)
    ensures ReadInto(Default, Encode(f) + rest) == ReadStep(Fields(f.success, f.index, 0), rest, Done)
  {
  }

  /** The round trip restores every field exactly when the term was 0. */
  lemma RoundTripExactIff(f: Fields)
    ensures ReadInto(Default, Encode(f)).fields == f <==> f.nonMatchingTerm == 0
  {
  }

  const TruePrefix: string := "true, index="
  const FalsePrefix: string := "false, index="

  /** The text of toString for a result with `success` and `index`. */
  function Render(success: bool, index: int32): string
  {
    BoolToString(success) + ", index=" + IntToString(index as int)
  }

  predicate HasPrefix(s: string, p: string)
  {
    |p| <= |s| && s[..|p|] == p
  }

  /** The index part of toString's text, paired with the flag its prefix gave. */
  function ParseIndexText(success: bool, t: string): Option<Message>
  {
    match ParseInt(t)
    case Some(v) => if -0x8000_0000 <= v < 0x8000_0000 then Some(Message(success, v as int32)) else None
    case None => None
  }

  /** Inverse of Render: recovers `success` and `index` from the text. */
  function ParseRendered(s: string): Option<Message>
  {
    if HasPrefix(s, TruePrefix) then ParseIndexText(true, s[|TruePrefix|..])
    else if HasPrefix(s, FalsePrefix) then ParseIndexText(false, s[|FalsePrefix|..])
    else None
  }

  lemma PrefixThen(p: string, t: string)
    ensures HasPrefix(p + t, p) && (p + t)[|p|..] == t
  {
  }

  lemma RenderRoundTrip(success: bool, index: int32)
    ensures ParseRendered(Render(success, index)) == Some(Message(success, index))
  {
    var digits := IntToString(index as int);
    if success {
      assert Render(success, index) == TruePrefix + digits;
      PrefixThen(TruePrefix, digits);
    } else {
      var s := FalsePrefix + digits;
      assert Render(success, index) == s;
      assert s[0] == 'f' && TruePrefix[0] == 't';
      assert !HasPrefix(s, TruePrefix);
      PrefixThen(FalsePrefix, digits);
    }
  }

  /** The result of an AppendEntries request, with fields updated in place. */
  class AppendResult {
    /** True if the append succeeded. */
    var success: bool
    /** On success the last appended index; on failure the first index of the non-matching term (0: no log). */
    var index: int32
    /** On failure the term that did not match; ignored on success. */
    var nonMatchingTerm: int32

    function Value(): Fields
      reads this
    {
      Fields(success, index, nonMatchingTerm)
    }

    /** AppendResult(): all fields keep Java's defaults. */
    constructor ()
      ensures Value() == Default
    {
      success, index, nonMatchingTerm := false, 0, 0;
    }

    /** AppendResult(success, index): the term keeps its default 0. */
    constructor Of(success: bool, index: int32)
      ensures Value() == Fields(success, index, 0)
    {
      this.success, this.index, this.nonMatchingTerm := success, index, 0;
    }

    /** AppendResult(success, index, non_matching_term): any values are accepted. */
    constructor OfConflict(success: bool, index: int32, nonMatchingTerm: int32)
      ensures Value() == Fields(success, index, nonMatchingTerm)
    {
      this.success, this.index, this.nonMatchingTerm := success, index, nonMatchingTerm;
    }

    /** writeTo: appends `success` then `index` to the stream; the term is not written. */
    method WriteTo(out: DataOutput)
      modifies out
      ensures out.written == old(out.written) + Encode(Value())
    {
      out.WriteBoolean(success);
      out.WriteInt(index);
    }

    /** readFrom: overwrites `success`, then `index`, from the stream; the term is left alone. */
    method ReadFrom(input: DataInput) returns (outcome: Outcome)
      modifies this, input
      ensures ReadStep(Value(), input.remaining, outcome) == ReadInto(old(Value()), old(input.remaining))
      ensures nonMatchingTerm == old(nonMatchingTerm)
    {
      var b := input.ReadBoolean();
      if b.Err? {
        return Threw(b.error);
      }
      success := b.value;
      var i := input.ReadInt();
      if i.Err? {
        return Threw(i.error);
      }
      index := i.value;
      outcome := Done;
    }

    function IsSuccess(): (r: bool)
      reads this
      ensures r == success
    {
      success
    }

    function GetIndex(): (r: int32)
      reads this
      ensures r == index
    {
      index
    }

    /** Despite its name, returns the non-matching term. */
    function GetMatchingTerm(): (r: int32)
      reads this
      ensures r == nonMatchingTerm
    {
      nonMatchingTerm
    }

    /** toString: "true" or "false", ", index=", then the decimal index; no term. */
    function ToString(): (s: string)
      reads this
      ensures ParseRendered(s) == Some(Message(success, index))
    {
      RenderRoundTrip(success, index);
      Render(success, index)
    }
  }

  /** Two results print alike exactly when they agree on `success` and `index`. */
  lemma ToStringIgnoresOnlyTerm(a: AppendResult, b: AppendResult)
    ensures a.ToString() == b.ToString() <==> a.success == b.success && a.index == b.index
  {
  }

  /**
   * The round trip through objects: write `r` out, read the tokens into a new
   * default object; the read completes and leaves nothing unread.
   */
  method WireRoundTrip(r: AppendResult) returns (copy: AppendResult, outcome: Outcome, unread: seq<Token>)
    ensures outcome == Done && unread == []
    ensures copy.success == r.success && copy.index == r.index && copy.nonMatchingTerm == 0
    ensures copy.Value() == r.Value() <==> r.nonMatchingTerm == 0
  {
    var out := new DataOutput();
    r.WriteTo(out);
    var input := new DataInput(out.written);
    copy := new AppendResult();
    outcome := copy.ReadFrom(input);
    unread := input.remaining;
    ReadIntoRoundTrip(r.Value(), []);
    assert Encode(r.Value()) + [] == Encode(r.Value());
  }
}
