/** The schedule pickers: a generic option list that highlights the selected value and reports
    a press, the half-hour time picker, and the passenger-count picker. */
module ScheduleModals {
  import opened Text

  /** `string | number` */
  datatype OptionValue = Str(s: string) | Num(n: int)

  /** `{ value, label }` */
  datatype ChoiceOption = ChoiceOption(value: OptionValue, text: string)

  /** The callbacks a press fires, in order. */
  datatype Event = Selected(value: OptionValue) | Closed

  /** `item.value.toString()`, the list key. */
  function Key(v: OptionValue): string {
    match v
    case Str(s) => s
    case Num(n) => IntToString(n)
  }

  /** `selectedValue === item.value`: strict equality, so a number never matches a string. */
  predicate IsHighlighted(option: ChoiceOption, selectedValue: OptionValue) {
    option.value == selectedValue
  }

  /** Pressing an option reports its value, then closes the list. */
  function Press(option: ChoiceOption): (events: seq<Event>)
    ensures |events| == 2 && events[0] == Selected(option.value) && events[1] == Closed
  {
    [Selected(option.value), Closed]
  }

  /** The close button and the system back action only close. */
  function Dismiss(): (events: seq<Event>)
    ensures events == [Closed]
  {
    [Closed]
  }

  predicate KeysDistinct(options: seq<ChoiceOption>) {
    forall i, j :: 0 <= i < j < |options| ==> Key(options[i].value) != Key(options[j].value)
  }

  /** With distinct keys at most one option is highlighted. */
  lemma AtMostOneHighlighted(options: seq<ChoiceOption>, selectedValue: OptionValue, i: int, j: int)
    requires KeysDistinct(options)
    requires 0 <= i < |options| && 0 <= j < |options|
    requires IsHighlighted(options[i], selectedValue) && IsHighlighted(options[j], selectedValue)
    ensures i == j
  {
  }

  /** `n.toString().padStart(2, '0')`: a single digit gets a leading '0' (`Pad2IsPadStart`). */
  function Pad2(n: nat): string {
    if n < 10 then "0" + NatToString(n) else NatToString(n)
  }

  /** `Pad2` is the two-wide zero padding of the rendered number. */
  lemma Pad2IsPadStart(n: nat)
    ensures Pad2(n) == PadStart(NatToString(n), 2, '0')
  {
    var s := NatToString(n);
    if n < 10 {
      assert PadStart(s, 2, '0') == PadStart("0" + s, 2, '0');
    }
  }

  /** Below 100 the padded number is two digits that read back as the number. */
  lemma Pad2ReadsBack(n: nat)
    requires n < 100
    ensures |Pad2(n)| == 2 && AllDigits(Pad2(n)) && ParseNat(Pad2(n)) == n
  {
    Pad2IsPadStart(n);
    TwoDigits(n);
  }

  /** The clock hour of a 24-hour hour: 12 for midnight and noon, otherwise the hour modulo 12. */
  function Hour12(hour: nat): nat {
    if hour == 0 then 12 else if hour > 12 then hour - 12 else hour
  }

  function AmPm(hour: nat): string {
    if hour >= 12 then "PM" else "AM"
  }

  /** The option for `hour`:`minute`: the zero-padded 24-hour value and the 12-hour label. */
  function Slot(hour: nat, minute: nat): ChoiceOption {
    ChoiceOption(Str(Time24(hour, minute)), NatToString(Hour12(hour)) + ":" + Pad2(minute) + " " + AmPm(hour))
  }

  /** The zero-padded "HH:MM" value of `hour`:`minute`. */
  function Time24(hour: nat, minute: nat): string {
    Pad2(hour) + ":" + Pad2(minute)
  }

  /** The option at position `k` of the list: half-hour `k` of the day. */
  function SlotAt(k: nat): ChoiceOption {
    Slot(k / 2, k % 2 * 30)
  }

  /** `generateTimeOptions`: every half hour of the day, from 00:00 to 23:30. */
  method GenerateTimeOptions() returns (times: seq<ChoiceOption>)
    ensures |times| == 48
    ensures forall k :: 0 <= k < 48 ==> times[k] == SlotAt(k)
  {
    times := [];
    var hour := 0;
    while hour < 24
      invariant 0 <= hour <= 24
      invariant |times| == 2 * hour
      invariant forall k :: 0 <= k < |times| ==> times[k] == SlotAt(k)
    {
      var minute := 0;
      while minute < 60
        invariant minute == 0 || minute == 30 || minute == 60
        invariant |times| == 2 * hour + minute / 30
        invariant forall k :: 0 <= k < |times| ==> times[k] == SlotAt(k)
      {
        assert |times| / 2 == hour && |times| % 2 * 30 == minute;
        times := times + [Slot(hour, minute)];
        minute := minute + 30;
      }
      hour := hour + 1;
    }
  }

  /** The minutes since midnight that an "HH:MM" value names (-1 for any other string). */
  function ClockMinutes(value: string): int {
    if |value| == 5 && AllDigits(value[..2]) && AllDigits(value[3..]) then
      ParseNat(value[..2]) * 60 + ParseNat(value[3..])
    else
      -1
  }

  /** "HH:MM" with two-digit hour below 24 and minutes 00 or 30. */
  predicate WellFormedValue(value: string) {
    |value| == 5 && value[2] == ':' && AllDigits(value[..2]) && AllDigits(value[3..]) &&
    ParseNat(value[..2]) < 24 && (ParseNat(value[3..]) == 0 || ParseNat(value[3..]) == 30)
  }

  /** The value of `hour`:`minute` is a zero-padded "HH:MM" whose parts read back as the hour
      and the minute. */
  lemma Time24ReadsBack(hour: nat, minute: nat)
    requires hour < 100 && minute < 100
    ensures var v := Time24(hour, minute);
      |v| == 5 && v[2] == ':' && AllDigits(v[..2]) && AllDigits(v[3..]) &&
      ParseNat(v[..2]) == hour && ParseNat(v[3..]) == minute
    ensures ClockMinutes(Time24(hour, minute)) == hour * 60 + minute
  {
    Pad2ReadsBack(hour);
    Pad2ReadsBack(minute);
    ClockOfParts(Pad2(hour), Pad2(minute));
  }

  /** Two two-digit parts joined by ':' form a well-split clock value naming their minutes. */
  lemma ClockOfParts(a: string, b: string)
    requires |a| == 2 && |b| == 2 && AllDigits(a) && AllDigits(b)
    ensures var v := a + ":" + b; |v| == 5 && v[2] == ':' && v[..2] == a && v[3..] == b
    ensures ClockMinutes(a + ":" + b) == ParseNat(a) * 60 + ParseNat(b)
  {
    var v := a + ":" + b;
    assert v[..2] == a;
    assert v[3..] == b;
  }

  /** Each value is a zero-padded "HH:MM" naming half-hour `k`. */
  lemma SlotValue(k: nat)
    requires k < 48
    ensures SlotAt(k).value.Str? && WellFormedValue(SlotAt(k).value.s)
    ensures ClockMinutes(SlotAt(k).value.s) == 30 * k
  {
    Time24ReadsBack(k / 2, k % 2 * 30);
    assert SlotAt(k).value == Str(Time24(k / 2, k % 2 * 30));
  }

  /** The values increase strictly along the list, so they are distinct and each key occurs once. */
  lemma TimeValuesIncrease(i: nat, j: nat)
    requires i < j < 48
    ensures ClockMinutes(SlotAt(i).value.s) < ClockMinutes(SlotAt(j).value.s)
    ensures SlotAt(i).value != SlotAt(j).value
    ensures Key(SlotAt(i).value) != Key(SlotAt(j).value)
  {
    SlotValue(i);
    SlotValue(j);
  }

  /** The 12-hour label reads back as the 24-hour hour: its clock hour is between 1 and 12,
      and together with AM or PM it names exactly one hour of the day. */
  lemma Hour12RoundTrip(hour: nat)
    requires hour < 24
    ensures 1 <= Hour12(hour) <= 12
    ensures AmPm(hour) == "AM" ==> hour == (if Hour12(hour) == 12 then 0 else Hour12(hour))
    ensures AmPm(hour) == "PM" ==> hour == (if Hour12(hour) == 12 then 12 else Hour12(hour) + 12)
  {
  }

  /** The time picker's default selection '08:00' is option 16, and no other option. */
  lemma DefaultTimeIsOffered()
    ensures IsHighlighted(SlotAt(16), Str("08:00"))
    ensures forall k :: 0 <= k < 48 && k != 16 ==> !IsHighlighted(SlotAt(k), Str("08:00"))
  {
    EightOClock();
    forall k | 0 <= k < 48 && k != 16
      ensures !IsHighlighted(SlotAt(k), Str("08:00"))
    {
      if k < 16 {
        TimeValuesIncrease(k, 16);
      } else {
        TimeValuesIncrease(16, k);
      }
    }
  }

  /** Option 16 has the value "08:00". */
  lemma EightOClock()
    ensures SlotAt(16).value == Str("08:00")
  {
    assert Digit(8) == '8' && Digit(0) == '0';
    assert NatToString(8) == "8" && NatToString(0) == "0";
    assert Time24(8, 0) == "08:00";
  }

  /** "1 passenger", "2 passengers", ... */
  function PassengerLabel(count: nat): string {
    NatToString(count) + " passenger" + (if count > 1 then "s" else "")
  }

  const DefaultMaxPassengers := 8

  /** `Array.from({ length: maxPassengers }, (_, i) => ...)`: one option per count from 1 to the
      maximum; a negative length gives no options. */
  function PassengerOptions(maxPassengers: int): (r: seq<ChoiceOption>)
    ensures |r| == if maxPassengers < 0 then 0 else maxPassengers
    ensures forall i :: 0 <= i < |r| ==> r[i].value == Num(i + 1) && r[i].text == PassengerLabel(i + 1)
  {
    var n := if maxPassengers < 0 then 0 else maxPassengers;
    seq(n, i requires 0 <= i < n => ChoiceOption(Num(i + 1), PassengerLabel(i + 1)))
  }

  /** The passenger keys are distinct, the plural "s" appears exactly from two passengers on,
      and the default list has eight options of which the default selection 1 is the first. */
  lemma PassengerOptionsFacts(maxPassengers: int, i: int, j: int)
    requires 0 <= i < j < |PassengerOptions(maxPassengers)|
    ensures Key(PassengerOptions(maxPassengers)[i].value) != Key(PassengerOptions(maxPassengers)[j].value)
    ensures var t := PassengerOptions(maxPassengers)[j].text; t[|t| - 1] == 's'
    ensures var t := PassengerOptions(maxPassengers)[0].text; t[|t| - 1] == 'r'
    ensures |PassengerOptions(DefaultMaxPassengers)| == 8 && IsHighlighted(PassengerOptions(DefaultMaxPassengers)[0], Num(1))
  {
    NatToStringInjective(i + 1, j + 1);
  }
}
