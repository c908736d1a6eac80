/** The JSON codec of entities.Direction (domain/entities/direction.go).
    MarshalJSON writes a quoted name, or `null` for an unnamed value.
    UnmarshalJSON strips the first and last byte, whatever they are, and
    compares what is left with the two names; it writes the receiver only on
    a match. */
module DirectionJson {
  import opened Wrappers
  import opened Errors
  import opened Entities

  newtype byte = x: int | 0 <= x < 256

  /** The bytes of an ASCII string. */
  function Ascii(s: string): (b: seq<byte>)
    requires forall i :: 0 <= i < |s| ==> s[i] as int < 256
    ensures |b| == |s| && forall i :: 0 <= i < |s| ==> b[i] as int == s[i] as int
  {
    seq(|s|, i requires 0 <= i < |s| => s[i] as int as byte)
  }

  const QuoteByte: byte := 34
  const OutgoingName: seq<byte> := Ascii("outgoing")
  const IncomingName: seq<byte> := Ascii("incoming")
  const Null: seq<byte> := Ascii("null")

  const NilMessage: string := "direction can't be nil"
  const WrongMessage: string := "wrong type of Direction only outgoing/incoming values allowed"

  function Quoted(s: seq<byte>): seq<byte>
  {
    [QuoteByte] + s + [QuoteByte]
  }

  /** Direction.MarshalJSON; its error result is always nil and is not modelled. */
  function MarshalJSON(d: Direction): (b: seq<byte>)
    ensures d == Outgoing ==> b == Quoted(OutgoingName)
    ensures d == Incoming ==> b == Quoted(IncomingName)
    ensures d != Outgoing && d != Incoming ==> b == Null
  {
    if d == Outgoing then Quoted(OutgoingName)
    else if d == Incoming then Quoted(IncomingName)
    else Null
  }

  /** What `(*Direction).UnmarshalJSON` leaves behind: the receiver's value and
      the returned error, or a slice-bounds panic on a non-nil input shorter
      than two bytes. The input is None for a nil slice. */
  datatype Unmarshalled = Unmarshalled(d: Direction, err: Option<Error>) | SlicePanic

  function UnmarshalJSON(d: Direction, v: Option<seq<byte>>): (r: Unmarshalled)
    ensures v.None? ==> r == Unmarshalled(d, Some(New(NilMessage)))
    ensures r.SlicePanic? <==> v.Some? && |v.value| < 2
    ensures r.Unmarshalled? && r.err.Some? ==> r.d == d
    ensures r.Unmarshalled? && r.err.None? ==>
              (r.d == Outgoing && v.value[1..|v.value| - 1] == OutgoingName) ||
              (r.d == Incoming && v.value[1..|v.value| - 1] == IncomingName)
    ensures v.Some? && |v.value| >= 2 && v.value[1..|v.value| - 1] == OutgoingName ==> r == Unmarshalled(Outgoing, None)
    ensures v.Some? && |v.value| >= 2 && v.value[1..|v.value| - 1] == IncomingName ==> r == Unmarshalled(Incoming, None)
    ensures v.Some? && |v.value| >= 2 && v.value[1..|v.value| - 1] != OutgoingName &&
              v.value[1..|v.value| - 1] != IncomingName ==>
              r == Unmarshalled(d, Some(New(WrongMessage)))
  {
    if v.None? then Unmarshalled(d, Some(New(NilMessage)))
    else if |v.value| < 2 then SlicePanic
    else
      var inner := v.value[1..|v.value| - 1];
      assert OutgoingName[0] != IncomingName[0];
      if inner == OutgoingName then Unmarshalled(Outgoing, None)
      else if inner == IncomingName then Unmarshalled(Incoming, None)
      else Unmarshalled(d, Some(New(WrongMessage)))
  }

  /** Decoding what was encoded gives back each named direction, whatever the receiver held. */
  lemma RoundTrip(old_d: Direction, d: Direction)
    requires d == Outgoing || d == Incoming
    ensures UnmarshalJSON(old_d, Some(MarshalJSON(d))) == Unmarshalled(d, None)
  {
    var b := MarshalJSON(d);
    assert b[1..|b| - 1] == (if d == Outgoing then OutgoingName else IncomingName);
    assert OutgoingName != IncomingName by {
      assert OutgoingName[0] != IncomingName[0];
    }
  }

  /** The `null` written for an unnamed direction does not decode: it is an
      error and the receiver keeps its value. */
  lemma NullDoesNotDecode(old_d: Direction, d: Direction)
    requires d != Outgoing && d != Incoming
    ensures UnmarshalJSON(old_d, Some(MarshalJSON(d))) == Unmarshalled(old_d, Some(New(WrongMessage)))
  {
    var b := MarshalJSON(d);
    assert b[1..|b| - 1] == b[1..3];
    assert |b[1..3]| != |OutgoingName| && |b[1..3]| != |IncomingName|;
  }

  /** Only the interior decides: the first and last byte are never looked at. */
  lemma {:induction false} DelimitersIgnored(d: Direction, first: byte, last: byte, inner: seq<byte>)
    ensures UnmarshalJSON(d, Some([first] + inner + [last])) == UnmarshalJSON(d, Some(Quoted(inner)))
  {
    var v := [first] + inner + [last];
    assert v[1..|v| - 1] == inner;
    assert Quoted(inner)[1..|Quoted(inner)| - 1] == inner;
  }
}
