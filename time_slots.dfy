/** The half-hour slot picker of both booking screens: a generator of the
    labels "09:00" … "14:00" and the filter that hides labels already booked.
    Labels are "HH:MM" strings; a label's meaning is its minute of the day. */
module TimeSlots {
  import opened Common

  /** `n.toString().padStart(2, '0')` for a number below 100. */
  function Pad2(n: nat): (r: string)
    requires n < 100
    ensures |r| == 2 && IsDigit(r[0]) && IsDigit(r[1])
    ensures DigitValue(r[0]) * 10 + DigitValue(r[1]) == n
  {
    [('0' as int + n / 10) as char, ('0' as int + n % 10) as char]
  }

  /** The "HH:MM" label of a minute of the day. */
  function Label(minute: nat): string
    requires minute < 6000
  {
    Pad2(minute / 60) + ":" + Pad2(minute % 60)
  }

  /** A label is five characters: two digits, a colon, two digits. */
  predicate WellFormed(s: string) {
    |s| == 5 && IsDigit(s[0]) && IsDigit(s[1]) && s[2] == ':' && IsDigit(s[3]) && IsDigit(s[4])
  }

  /** The minute of the day that a well-formed label names. */
  function Minutes(s: string): nat
    requires WellFormed(s)
  {
    (DigitValue(s[0]) * 10 + DigitValue(s[1])) * 60 + DigitValue(s[3]) * 10 + DigitValue(s[4])
  }

  /** Reading a label back gives the minute it was made from. */
  lemma LabelRoundTrip(minute: nat)
    requires minute < 6000
    ensures WellFormed(Label(minute)) && Minutes(Label(minute)) == minute
  {
    var l := Label(minute);
    assert l[..2] == Pad2(minute / 60) && l[3..] == Pad2(minute % 60);
    assert l[0] == Pad2(minute / 60)[0] && l[1] == Pad2(minute / 60)[1];
    assert l[3] == Pad2(minute % 60)[0] && l[4] == Pad2(minute % 60)[1];
  }

  /** The slots the screens offer: every half hour from 09:00 to 14:00 inclusive. */
  function SlotLabels(): seq<string> {
    seq(11, i requires 0 <= i < 11 => Label(540 + 30 * i))
  }

  /** `generateTimeSlots`: for each hour 9..13 push "HH:00" and "HH:30", then push "14:00". */
  method GenerateTimeSlots() returns (slots: seq<string>)
    ensures slots == SlotLabels()
  {
    slots := [];
    var hour := 9;
    while hour < 14
      invariant 9 <= hour <= 14
      invariant slots == SlotLabels()[..2 * (hour - 9)]
    {
      HourLabels(hour);
      slots := slots + [Pad2(hour) + ":00"];
      slots := slots + [Pad2(hour) + ":30"];
      assert SlotLabels()[..2 * (hour + 1 - 9)] == SlotLabels()[..2 * (hour - 9)] + [SlotLabels()[2 * (hour - 9)], SlotLabels()[2 * (hour - 9) + 1]];
      hour := hour + 1;
    }
    HourLabels(14);
    slots := slots + ["14:00"];
    assert SlotLabels()[..11] == SlotLabels();
  }

  /** The two labels the generator pushes for an hour are the slots at that hour. */
  lemma HourLabels(hour: nat)
    requires 9 <= hour <= 14
    ensures hour < 14 ==> SlotLabels()[2 * (hour - 9)] == Pad2(hour) + ":00"
    ensures hour < 14 ==> SlotLabels()[2 * (hour - 9) + 1] == Pad2(hour) + ":30"
    ensures hour == 14 ==> SlotLabels()[10] == "14:00"
  {
    var m := 540 + 30 * (2 * (hour - 9));
    assert m == 60 * hour;
    assert m / 60 == hour && m % 60 == 0;
    assert (m + 30) / 60 == hour && (m + 30) % 60 == 30;
    assert Pad2(0) == "00" && Pad2(30) == "30";
    if hour == 14 {
      assert Pad2(14) == "14";
    }
  }

  /** The generated list, written out. */
  lemma SlotLabelsAreTheHalfHours()
    ensures SlotLabels() == ["09:00", "09:30", "10:00", "10:30", "11:00", "11:30",
                             "12:00", "12:30", "13:00", "13:30", "14:00"]
  {
    var l := SlotLabels();
    EarlySlots();
    MiddaySlots();
    LateSlots();
    assert l == l[..4] + l[4..8] + l[8..];
  }

  /** The slots of 09 and 10 o'clock. */
  lemma EarlySlots()
    ensures SlotLabels()[..4] == ["09:00", "09:30", "10:00", "10:30"]
  {
    var l := SlotLabels();
    HourLabels(9); HourLabels(10);
    assert Pad2(9) == "09" && Pad2(10) == "10";
    assert l[0] == "09:00" && l[1] == "09:30" && l[2] == "10:00" && l[3] == "10:30";
  }

  /** The slots of 11 and 12 o'clock. */
  lemma MiddaySlots()
    ensures SlotLabels()[4..8] == ["11:00", "11:30", "12:00", "12:30"]
  {
    var l := SlotLabels();
    HourLabels(11); HourLabels(12);
    assert Pad2(11) == "11" && Pad2(12) == "12";
    assert l[4] == "11:00" && l[5] == "11:30" && l[6] == "12:00" && l[7] == "12:30";
  }

  /** The slots of 13 o'clock and the closing 14:00. */
  lemma LateSlots()
    ensures SlotLabels()[8..] == ["13:00", "13:30", "14:00"]
  {
    var l := SlotLabels();
    HourLabels(13); HourLabels(14);
    assert Pad2(13) == "13";
    assert l[8] == "13:00" && l[9] == "13:30" && l[10] == "14:00";
  }

  /** Every slot is a well-formed label on the hour or the half hour, the list runs from
      09:00 to 14:00, and it is strictly increasing in steps of thirty minutes. */
  lemma SlotLabelsShape()
    ensures |SlotLabels()| == 11
    ensures forall i :: 0 <= i < 11 ==> WellFormed(SlotLabels()[i])
    ensures forall i :: 0 <= i < 11 ==> SlotLabels()[i][3..] in {"00", "30"}
    ensures forall i :: 0 <= i < 11 ==> Minutes(SlotLabels()[i]) == 540 + 30 * i
    ensures Minutes(SlotLabels()[0]) == 9 * 60 && Minutes(SlotLabels()[10]) == 14 * 60
    ensures forall i, j :: 0 <= i < j < 11 ==> Minutes(SlotLabels()[i]) < Minutes(SlotLabels()[j])
  {
    forall i | 0 <= i < 11
      ensures WellFormed(SlotLabels()[i]) && Minutes(SlotLabels()[i]) == 540 + 30 * i
      ensures SlotLabels()[i][3..] in {"00", "30"}
    {
      SlotLabelAt(i);
    }
  }

  /** The i-th slot names minute 540 + 30i, on the hour or the half hour. */
  lemma SlotLabelAt(i: nat)
    requires i < 11
    ensures WellFormed(SlotLabels()[i]) && Minutes(SlotLabels()[i]) == 540 + 30 * i
    ensures SlotLabels()[i][3..] == "00" || SlotLabels()[i][3..] == "30"
  {
    var h := 9 + i / 2;
    HourLabels(h);
    OnTheHalfHour(h);
    if i % 2 == 0 {
      assert i == 2 * (h - 9);
    } else {
      assert i == 2 * (h - 9) + 1;
    }
  }

  /** "HH:00" and "HH:30" are well formed and name the hour and the half hour after it. */
  lemma OnTheHalfHour(h: nat)
    requires h < 24
    ensures WellFormed(Pad2(h) + ":00") && Minutes(Pad2(h) + ":00") == 60 * h
    ensures WellFormed(Pad2(h) + ":30") && Minutes(Pad2(h) + ":30") == 60 * h + 30
    ensures (Pad2(h) + ":00")[3..] == "00" && (Pad2(h) + ":30")[3..] == "30"
  {
    var p := Pad2(h);
    var on, half := p + ":00", p + ":30";
    assert on[0] == p[0] && on[1] == p[1] && on[3] == '0' && on[4] == '0';
    assert half[0] == p[0] && half[1] == p[1] && half[3] == '3' && half[4] == '0';
  }

  /** No label appears twice among the slots. */
  lemma SlotLabelsDistinct()
    ensures forall i, j :: 0 <= i < j < 11 ==> SlotLabels()[i] != SlotLabels()[j]
  {
    SlotLabelsShape();
  }

  /** `timeSlots.filter(slot => !booked.includes(slot))`: the slots whose label is not
      booked, in the slots' order. */
  function AvailableSlots(slots: seq<string>, booked: seq<string>): (r: seq<string>)
    ensures |r| <= |slots|
    ensures forall i :: 0 <= i < |r| ==> r[i] in slots && r[i] !in booked
    ensures forall i :: 0 <= i < |slots| && slots[i] !in booked ==> slots[i] in r
  {
    Filter(slots, (s: string) => s !in booked)
  }

  /** Booking one label of a list without repeats removes exactly that entry and keeps
      the others in order. */
  lemma {:induction false} RemoveBookedLabel(slots: seq<string>, k: nat)
    requires k < |slots|
    requires forall i, j :: 0 <= i < j < |slots| ==> slots[i] != slots[j]
    ensures AvailableSlots(slots, [slots[k]]) == slots[..k] + slots[k + 1..]
  {
    var x := slots[k];
    var before, after := slots[..k], slots[k + 1..];
    assert slots == before + [x] + after;
    forall i | 0 <= i < |before| ensures before[i] != x {
      assert before[i] == slots[i];
    }
    forall i | 0 <= i < |after| ensures after[i] != x {
      assert after[i] == slots[k + 1 + i];
    }
    FilterDropsOne(before, x, after, (s: string) => s !in [x]);
  }

  /** Filtering out exactly the middle element leaves the parts around it. */
  lemma FilterDropsOne<T>(before: seq<T>, x: T, after: seq<T>, keep: T -> bool)
    requires forall i :: 0 <= i < |before| ==> keep(before[i])
    requires forall i :: 0 <= i < |after| ==> keep(after[i])
    requires !keep(x)
    ensures Filter(before + [x] + after, keep) == before + after
  {
    assert [x][1..] == [];
    assert Filter([x], keep) == [];
    FilterAppend(before, [x], keep);
    FilterKeepsAll(before, keep);
    assert Filter(before + [x], keep) == before;
    FilterAppend(before + [x], after, keep);
    FilterKeepsAll(after, keep);
  }

  /** The doctor screen: one booked label removes exactly that slot and keeps the others in order. */
  lemma OneBookedLabelRemovesOneSlot(k: nat)
    requires k < 11
    ensures AvailableSlots(SlotLabels(), [SlotLabels()[k]]) == SlotLabels()[..k] + SlotLabels()[k + 1..]
  {
    SlotLabelsDistinct();
    RemoveBookedLabel(SlotLabels(), k);
  }

  /** The patient screen formats booked times as 12-hour "hh:mm AM" / "hh:mm PM" labels. */
  predicate TwelveHourLabel(s: string) {
    |s| == 8 && (s[6..] == "AM" || s[6..] == "PM")
  }

  /** Labels of another length never match a five-character slot. */
  lemma {:induction false} LongerLabelsRemoveNothing(slots: seq<string>, booked: seq<string>)
    requires forall i :: 0 <= i < |slots| ==> |slots[i]| == 5
    requires forall b :: b in booked ==> |b| == 8
    ensures AvailableSlots(slots, booked) == slots
  {
    var keep := (s: string) => s !in booked;
    forall i | 0 <= i < |slots| ensures keep(slots[i]) {
      assert |slots[i]| == 5;
    }
    FilterKeepsAll(slots, keep);
  }

  /** The patient screen: since no 12-hour label equals an "HH:MM" slot, the filter removes nothing. */
  lemma TwelveHourLabelsRemoveNothing(booked: seq<string>)
    requires forall b :: b in booked ==> TwelveHourLabel(b)
    ensures AvailableSlots(SlotLabels(), booked) == SlotLabels()
  {
    SlotLabelsShape();
    LongerLabelsRemoveNothing(SlotLabels(), booked);
  }
}
