/**
 * The seat-reservation screen: which day a reservation is made for, and
 * how the rooms of the selected library are laid out two per table row.
 */
module RoomGrid {
  import opened Clock
  import opened SeatModel

  datatype Room = Room(name: string)

  datatype Library = Library(name: string)

  /** The suffix of the screen title. */
  datatype DayTitle = Today | Tomorrow

  // ---------------------------------------------------------------------
  // Rooms paired two per row.

  /**
   * `numberOfRowsInSection`: half the rooms, rounded up, i.e. the least
   * number of two-slot rows that holds every room.
   */
  function RowCount(count: nat): (rows: nat)
    ensures count <= 2 * rows <= count + 1
  {
    (count + 1) / 2
  }

  function LeftIndex(row: nat): nat {
    2 * row
  }

  function RightIndex(row: nat): nat {
    LeftIndex(row) + 1
  }

  /** The room indices row `row` shows: the left one, then the right one when it exists. */
  function RowSlots(row: nat, count: nat): seq<nat> {
    [LeftIndex(row)] + (if RightIndex(row) < count then [RightIndex(row)] else [])
  }

  /** The room indices shown by the first `rows` rows, top to bottom, left to right. */
  function Slots(rows: nat, count: nat): seq<nat> {
    if rows == 0 then [] else Slots(rows - 1, count) + RowSlots(rows - 1, count)
  }

  /** Every row the table asks for has a left room; only the last row of an odd count lacks a right one. */
  lemma LeftInBounds(row: nat, count: nat)
    requires row < RowCount(count)
    ensures LeftIndex(row) < count
    ensures RightIndex(row) >= count <==> count % 2 == 1 && row == RowCount(count) - 1
  {
  }

  /** Index `i` is shown by row `row` exactly when it is a room index and `row` is its half. */
  lemma SlotOfIndex(row: nat, count: nat, i: nat)
    requires row < RowCount(count)
    ensures i in RowSlots(row, count) <==> i < count && i / 2 == row
  {
  }

  /** The rows shown so far list the rooms `0 .. min(2 * rows, count) - 1`, each once and in order. */
  lemma {:induction false} SlotsPrefix(rows: nat, count: nat)
    requires rows <= RowCount(count)
    ensures var n := if 2 * rows <= count then 2 * rows else count;
      |Slots(rows, count)| == n && forall i | 0 <= i < n :: Slots(rows, count)[i] == i
  {
    if rows > 0 {
      SlotsPrefix(rows - 1, count);
    }
  }

  /** Across all rows, every room index `0 .. count - 1` is shown exactly once, in order. */
  lemma AllRoomsShownOnce(count: nat)
    ensures Slots(RowCount(count), count) == seq(count, i => i)
  {
    SlotsPrefix(RowCount(count), count);
  }

  // ---------------------------------------------------------------------
  // Today or tomorrow.

  /** Once the reserve time of day has been reached, reservations are for the next day. */
  predicate ReservesTomorrow(now: Instant, reserveTime: TimeOfDay) {
    HourOf(now) > reserveTime.hour || (HourOf(now) == reserveTime.hour && MinuteOf(now) >= reserveTime.minute)
  }

  /** For a reserve time with a valid minute, the rule compares minutes since midnight. */
  lemma ReservesTomorrowByMinuteOfDay(now: Instant, reserveTime: TimeOfDay)
    requires 0 <= reserveTime.minute < MinutesPerHour
    ensures ReservesTomorrow(now, reserveTime) <==> MinuteOfDay(now) >= reserveTime.hour * MinutesPerHour + reserveTime.minute
  {
    MinuteOfDayParts(now);
  }

  /**
   * The parts of the reservation screen the core keeps: the day reserved
   * for, the title suffix, the selected library and the rooms shown.
   * `libraryRooms` is the library manager's cached room list of a library.
   */
  class SeatReservationScreen {
    var date: Instant
    var dayTitle: DayTitle
    var selectedLibrary: Option<Library>
    var roomData: seq<Room>
    const libraryRooms: Library -> seq<Room>

    constructor (libraryRooms: Library -> seq<Room>)
      ensures this.libraryRooms == libraryRooms
      ensures selectedLibrary == None && roomData == []
    {
      this.libraryRooms := libraryRooms;
      date := 0;
      dayTitle := Today;
      selectedLibrary := None;
      roomData := [];
    }

    /** `viewDidLoad`: picks today or, once the reserve time has passed, tomorrow. */
    method ViewDidLoad(now: Instant, reserveTime: TimeOfDay)
      modifies this`date, this`dayTitle
      ensures ReservesTomorrow(now, reserveTime) ==> date == now + MinutesPerDay && dayTitle == Tomorrow
      ensures !ReservesTomorrow(now, reserveTime) ==> date == now && dayTitle == Today
    {
      date := now;
      var title := Today;
      var hour := HourOf(date);
      var minute := MinuteOf(date);
      if hour > reserveTime.hour {
        date := date + MinutesPerDay;
        title := Tomorrow;
      } else if hour == reserveTime.hour && minute >= reserveTime.minute {
        date := date + MinutesPerDay;
        title := Tomorrow;
      }
      dayTitle := title;
    }

    /** The `selectedLibrary` observer: the cached rooms of the library, or none. */
    method SelectLibrary(library: Option<Library>)
      modifies this`selectedLibrary, this`roomData
      ensures selectedLibrary == library
      ensures library.None? ==> roomData == []
      ensures library.Some? ==> roomData == libraryRooms(library.value)
    {
      selectedLibrary := library;
      if library.Some? {
        roomData := libraryRooms(library.value);
      } else {
        roomData := [];
      }
    }

    /** `update(rooms:for:)`: a room list replaces the shown one only if it is for the selected library. */
    method Update(rooms: seq<Room>, library: Library)
      modifies this`roomData
      ensures selectedLibrary == Some(library) ==> roomData == rooms
      ensures selectedLibrary != Some(library) ==> roomData == old(roomData)
    {
      if Some(library) == selectedLibrary {
        roomData := rooms;
      }
    }

    /** `handle(response:library:)`: only a successful room check reaches `update`. */
    method Handle(response: SeatResponse<seq<Room>>, library: Library)
      modifies this`roomData
      ensures response.Success? && selectedLibrary == Some(library) ==> roomData == response.value
      ensures !(response.Success? && selectedLibrary == Some(library)) ==> roomData == old(roomData)
    {
      if response.Success? {
        Update(response.value, library);
      }
    }

    /** The table's row count for the rooms shown: every row it asks for has a left room. */
    function NumberOfRows(): (rows: nat)
      reads this
      ensures |roomData| <= 2 * rows <= |roomData| + 1
      ensures forall row | 0 <= row < rows :: LeftIndex(row) < |roomData|
    {
      RowCount(|roomData|)
    }

    /** `cellForRowAt`: the left room and, when there is one, the right room of a row. */
    method CellRooms(row: nat) returns (left: Room, right: Option<Room>)
      requires row < NumberOfRows()
      ensures left == roomData[LeftIndex(row)]
      ensures RightIndex(row) < |roomData| ==> right == Some(roomData[RightIndex(row)])
      ensures RightIndex(row) >= |roomData| ==> right == None
      ensures [LeftIndex(row)] + (if right.Some? then [RightIndex(row)] else []) == RowSlots(row, |roomData|)
    {
      LeftInBounds(row, |roomData|);
      left := roomData[LeftIndex(row)];
      right := None;
      if RightIndex(row) < |roomData| {
        right := Some(roomData[RightIndex(row)]);
      }
    }
  }
}
