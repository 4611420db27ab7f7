/** The event kinds an observer can subscribe to, and the bit each kind occupies in a
    registration mask. */
module Kinds {

  datatype Kind =
    | NetworkState | CallStateEx | CallState | CellInfo | SignalStrengths | SimState
    | DataConnection | DataFlow | CfuIndicator | VoiceMail | IccAccount | CCallState
    | SimActive | VoIPCall

  function Code(k: Kind): bv32 {
    match k
    case NetworkState => 0x0001
    case CallStateEx => 0x0002
    case CallState => 0x0004
    case CellInfo => 0x0008
    case SignalStrengths => 0x0010
    case SimState => 0x0020
    case DataConnection => 0x0040
    case DataFlow => 0x0080
    case CfuIndicator => 0x0100
    case VoiceMail => 0x0200
    case IccAccount => 0x0400
    case CCallState => 0x0800
    case SimActive => 0x1000
    case VoIPCall => 0x2000
  }

  /** A registration mask: the kinds whose bits are set, and the remaining bits of the word. */
  datatype Mask = Mask(kinds: set<Kind>, rest: bv32)

  predicate HasBit(mask: Mask, k: Kind) {
    k in mask.kinds
  }

  /** The mask a front end registers with: one event type, one bit. */
  function Bit(k: Kind): Mask {
    Mask({k}, 0)
  }

  /** The mask a 32-bit word stands for. */
  function MaskOf(word: bv32): Mask {
    Mask((set k: Kind | word & Code(k) != 0), word & 0xFFFF_C000)
  }

  /** Position of a kind when event types are ordered by their enum value, as in a
      `std::set<TelephonyUpdateEventType>`. */
  function Rank(k: Kind): nat {
    match k
    case NetworkState => 0
    case CallStateEx => 1
    case CallState => 2
    case CellInfo => 3
    case SignalStrengths => 4
    case SimState => 5
    case DataConnection => 6
    case DataFlow => 7
    case CfuIndicator => 8
    case VoiceMail => 9
    case IccAccount => 10
    case CCallState => 11
    case SimActive => 12
    case VoIPCall => 13
  }

  const ALL_KINDS: seq<Kind> := [
    NetworkState, CallStateEx, CallState, CellInfo, SignalStrengths, SimState, DataConnection,
    DataFlow, CfuIndicator, VoiceMail, IccAccount, CCallState, SimActive, VoIPCall]

  /** The kinds the two default-data events belong to: a listener may subscribe to them on
      the pseudo slot 999, which stands for "the default data slot". */
  predicate IsDefaultDataKind(k: Kind) {
    k == DataConnection || k == DataFlow
  }

  const ALL_SLOTS := 999

  /** Testing a bit of the word is testing membership, and the event type's own value is the
      single-bit mask; the bits are in the order of the enum. */
  lemma MaskOfWord(word: bv32, k: Kind)
    ensures HasBit(MaskOf(word), k) <==> word & Code(k) != 0
    ensures MaskOf(Code(k)) == Bit(k)
    ensures forall j: Kind :: Code(j) < Code(k) <==> Rank(j) < Rank(k)
  {
    var m := MaskOf(Code(k));
    assert forall j: Kind :: Code(k) & Code(j) != 0 <==> j == k;
    assert Code(k) & 0xFFFF_C000 == 0;
    assert m.kinds == {k};
  }
}
