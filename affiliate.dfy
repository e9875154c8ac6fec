/** What the AdvCake and Admitad managers share: the tracking fields an action takes from its
    subid, with the corrections both apply to Google traffic, action times, and the positions
    saved with an action. */
module Affiliate {
  import opened Wrappers
  import opened Strings

  /** A `datetime`: its day number and the second within the day. */
  datatype Moment = Moment(day: int, second: int)

  /** The tracking fields the subid parser reads from an item; the parser itself is not part
      of this model. */
  datatype SubId = SubId(source: string, device: string, criterionId: string)

  /** The tracking fields as an action keeps them: a cleared criterion is `None`. */
  datatype Tracking = Tracking(source: string, device: string, criterionId: Option<string>)

  /** A position of an action: its tariff and amount in kopecks, either possibly unknown. */
  datatype Position = Position(id: int, tariffId: Option<int>, amount: Option<int>, actionId: int)

  /** `google_device_mapper`, with an unknown code read as `''` as the `except` branch does. */
  function GoogleDevice(code: string): (d: string)
    ensures d == "desktop" <==> code == "c"
    ensures d == "mobile" <==> code == "m"
    ensures d == "tablet" <==> code == "t"
    ensures d == "" <==> code != "c" && code != "m" && code != "t"
  {
    if code == "c" then "desktop" else if code == "m" then "mobile" else if code == "t" then "tablet" else ""
  }

  /** The corrections made to an action of Google traffic: the device code spelled out, and
      the criterion of a dynamic search ad (one containing `dsa`) cleared. Other sources keep
      their fields. */
  function Track(sub: SubId): (t: Tracking)
    ensures t.source == sub.source
    ensures sub.source != "google" ==> t.device == sub.device && t.criterionId == Some(sub.criterionId)
    ensures sub.source == "google" ==> t.device == GoogleDevice(sub.device)
    ensures sub.source == "google" ==> (t.criterionId.None? <==> Contains(sub.criterionId, "dsa"))
    ensures t.criterionId.Some? ==> t.criterionId.value == sub.criterionId
  {
    if sub.source != "google" then Tracking(sub.source, sub.device, Some(sub.criterionId))
    else Tracking(sub.source, GoogleDevice(sub.device),
                  if Contains(sub.criterionId, "dsa") then None else Some(sub.criterionId))
  }

  /** The device a Google action ends with is one of the three names or empty, and no two codes
      share a name. */
  lemma GoogleDeviceNames(a: string, b: string)
    ensures GoogleDevice(a) in ["desktop", "mobile", "tablet", ""]
    ensures GoogleDevice(a) == GoogleDevice(b) && GoogleDevice(a) != "" ==> a == b
  {
  }

  /** The values read from a list of items, in order; the first item that does not read
      raises. */
  function ReadAll<I, A, E>(items: seq<I>, read: I -> Result<A, E>): Result<seq<A>, E>
    decreases |items|
  {
    if items == [] then Ok([])
    else
      var n := |items| - 1;
      match ReadAll(items[..n], read)
      case Err(e) => Err(e)
      case Ok(done) =>
        match read(items[n])
        case Err(e) => Err(e)
        case Ok(a) => Ok(done + [a])
  }

  /** Reading succeeds exactly when every item reads, giving their values in order, and
      otherwise raises what the first item that does not read raises. */
  lemma {:induction false} ReadAllMeaning<I, A, E>(items: seq<I>, read: I -> Result<A, E>)
    ensures var r := ReadAll(items, read);
      && (r.Ok? <==> forall i :: 0 <= i < |items| ==> read(items[i]).Ok?)
      && (r.Ok? ==> |r.value| == |items| && forall i :: 0 <= i < |items| ==> read(items[i]) == Ok(r.value[i]))
      && (r.Err? ==> exists i :: 0 <= i < |items| && read(items[i]) == Err(r.error)
                                && forall j :: 0 <= j < i ==> read(items[j]).Ok?)
    decreases |items|
  {
    if items != [] {
      var n := |items| - 1;
      ReadAllMeaning(items[..n], read);
      assert forall i :: 0 <= i < n ==> items[..n][i] == items[i];
    }
  }

  /** The items read so far, one more. */
  lemma ReadSnoc<I, A, E>(items: seq<I>, i: nat, read: I -> Result<A, E>)
    requires i < |items| && ReadAll(items[..i], read).Ok?
    ensures read(items[i]).Err? ==> ReadAll(items[..i + 1], read) == Err(read(items[i]).error)
    ensures read(items[i]).Ok? ==> ReadAll(items[..i + 1], read) == Ok(ReadAll(items[..i], read).value + [read(items[i]).value])
  {
    assert items[..i + 1][..i] == items[..i];
  }

  /** The first item that does not read decides what the whole list raises. */
  lemma ReadFirstError<I, A, E>(items: seq<I>, i: nat, read: I -> Result<A, E>)
    requires i < |items| && ReadAll(items[..i], read).Ok? && read(items[i]).Err?
    ensures ReadAll(items, read) == Err(read(items[i]).error)
  {
    ReadAllMeaning(items, read);
    ReadAllMeaning(items[..i], read);
    assert forall j :: 0 <= j < i ==> items[..i][j] == items[j];
  }
}
