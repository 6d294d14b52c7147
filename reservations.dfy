/**
 * Reservation state of the signed-in account.
 *
 * `ReservationManager` owns the account, the current reservation and the
 * reservation history, and updates them from the outcomes of the seat
 * service. `load` reads the reservation and history from one archive file
 * per account; `save` writes only the reservation. Every assignment to
 * `reservation` re-schedules the local reminders and hands the new value to
 * the companion watch.
 */
module Reservations {
  import opened SeatModel
  import opened Notifications

  /** The bytes of a file; what they say is known only to the injected encoder and decoder. */
  type Data = seq<bv8>

  /** The envelope `load` expects to find in an account's archive file. */
  datatype ReservationArchive = ReservationArchive(reservation: Option<SeatReservation>, historys: seq<SeatReservation>)

  /** A request sent to the seat service. */
  datatype Request =
    | FetchHistory(page: int)
    | Cancel(reservation: SeatReservation)

  const FilePrefix: string := "SeatReservation-"
  const FileExtension: string := ".archive"

  /** The name of an account's archive file inside the shared group directory. */
  function FileName(username: string): (name: string)
    ensures |name| == |FilePrefix| + |username| + |FileExtension|
    ensures name[..|FilePrefix|] == FilePrefix && name[|name| - |FileExtension|..] == FileExtension
    ensures name[|FilePrefix|..|name| - |FileExtension|] == username
  {
    FilePrefix + username + FileExtension
  }

  /** Different accounts never share an archive file. */
  lemma FileNameInjective(u1: string, u2: string)
    ensures FileName(u1) == FileName(u2) <==> u1 == u2
  {
    if FileName(u1) == FileName(u2) {
      var n := |FilePrefix|;
      assert |u1| == |u2|;
      assert FileName(u1)[n..n + |u1|] == u1;
      assert FileName(u2)[n..n + |u2|] == u2;
    }
  }

  /** The first reservation of a fetched list that is not history; `None` when every one is. */
  function FirstCurrent(list: seq<SeatReservation>): (r: Option<SeatReservation>)
    ensures r.None? <==> forall i | 0 <= i < |list| :: list[i].isHistory
    ensures r.Some? ==> r.value in list && !r.value.isHistory
  {
    if |list| == 0 then None
    else if !list[0].isHistory then Some(list[0])
    else
      var rest := FirstCurrent(list[1..]);
      assert forall i | 1 <= i < |list| :: list[i] == list[1..][i - 1];
      rest
  }

  /** `FirstCurrent` picks the element at the first position that is not history, in server order. */
  lemma {:induction false} FirstCurrentAt(list: seq<SeatReservation>, k: int)
    requires 0 <= k < |list| && !list[k].isHistory
    requires forall j | 0 <= j < k :: list[j].isHistory
    ensures FirstCurrent(list) == Some(list[k])
  {
    if k > 0 {
      assert list[0].isHistory;
      FirstCurrentAt(list[1..], k - 1);
    }
  }

  /** The file store after `delete(account:)`. */
  function Deleted(files: map<string, Data>, account: Option<UserAccount>): (r: map<string, Data>)
    ensures account.None? ==> r == files
    ensures account.Some? ==> r.Keys == files.Keys - {FileName(account.value.username)}
    ensures forall f | f in r :: f in files && r[f] == files[f]
  {
    match account
    case None => files
    case Some(a) => files - {FileName(a.username)}
  }

  /** Deleting one account's archive leaves every other account's archive as it was. */
  lemma DeleteSparesOtherAccounts(files: map<string, Data>, a: UserAccount, other: UserAccount)
    requires other != a
    ensures var f := FileName(other.username);
      (f in Deleted(files, Some(a)) <==> f in files) && (f in files ==> Deleted(files, Some(a))[f] == files[f])
  {
    FileNameInjective(a.username, other.username);
  }

  /**
   * The file store after `save(account:)` with the reservation `res` in
   * memory and `owner` as the manager's own account: no account writes
   * nothing, no reservation deletes the OWNER's file, and otherwise the
   * encoding of the bare reservation is written under `account`'s name.
   */
  function Saved(files: map<string, Data>, account: Option<UserAccount>, owner: Option<UserAccount>,
                 res: Option<SeatReservation>, encode: SeatReservation -> Data): (r: map<string, Data>)
    ensures account.None? ==> r == files
    ensures forall f | f in files && f !in r ::
      account.Some? && res.None? && owner.Some? && f == FileName(owner.value.username)
    ensures forall f | f in r && (f !in files || r[f] != files[f]) ::
      account.Some? && res.Some? && f == FileName(account.value.username) && r[f] == encode(res.value)
    ensures account.Some? && res.None? && owner.Some? ==> FileName(owner.value.username) !in r
    ensures account.Some? && res.Some? ==>
      FileName(account.value.username) in r && r[FileName(account.value.username)] == encode(res.value)
  {
    if account.None? then files
    else if res.None? then Deleted(files, owner)
    else files[FileName(account.value.username) := encode(res.value)]
  }

  /** The archive `load(account:)` would obtain: the account's file, if present, decoded. */
  function ArchiveIn(files: map<string, Data>, account: Option<UserAccount>,
                     decode: Data -> Option<ReservationArchive>): (r: Option<ReservationArchive>)
    ensures r.Some? ==> account.Some? && FileName(account.value.username) in files
                        && decode(files[FileName(account.value.username)]) == r
    ensures r.Some? <== account.Some? && FileName(account.value.username) in files
                        && decode(files[FileName(account.value.username)]).Some?
  {
    match account
    case None => None
    case Some(a) =>
      if FileName(a.username) in files then decode(files[FileName(a.username)]) else None
  }

  /** The pair (reservation, historys) that `load(account:)` installs. */
  function Loaded(files: map<string, Data>, account: Option<UserAccount>,
                  decode: Data -> Option<ReservationArchive>): (r: (Option<SeatReservation>, seq<SeatReservation>))
    ensures r != (None, []) ==> account.Some? && FileName(account.value.username) in files
                                && decode(files[FileName(account.value.username)]).Some?
  {
    match ArchiveIn(files, account, decode)
    case None => (None, [])
    case Some(a) => (a.reservation, a.historys)
  }

  /**
   * What one account loads depends only on that account's own file:
   * deleting or writing another account's archive does not change it.
   */
  lemma LoadIsolatesAccounts(files: map<string, Data>, a: UserAccount, other: UserAccount, x: Data,
                             decode: Data -> Option<ReservationArchive>)
    requires other != a
    ensures Loaded(Deleted(files, Some(a)), Some(other), decode) == Loaded(files, Some(other), decode)
    ensures Loaded(files[FileName(a.username) := x], Some(other), decode) == Loaded(files, Some(other), decode)
  {
    FileNameInjective(a.username, other.username);
  }

  /** When the account's file decodes to an archive, both fields are taken from that one archive. */
  lemma LoadReadsArchive(files: map<string, Data>, a: UserAccount, x: Data,
                         decode: Data -> Option<ReservationArchive>, arc: ReservationArchive)
    requires decode(x) == Some(arc)
    ensures Loaded(files[FileName(a.username) := x], Some(a), decode) == (arc.reservation, arc.historys)
  {
  }

  /**
   * After an account's archive is deleted, loading that account gives
   * (nil, []). (This rests on `delete` removing the file; see the note on
   * `removeItem(atPath:)` in the README.)
   */
  lemma LoadAfterDelete(files: map<string, Data>, a: UserAccount, decode: Data -> Option<ReservationArchive>)
    ensures Loaded(Deleted(files, Some(a)), Some(a), decode) == (None, [])
  {
  }

  /**
   * `save` writes the bare reservation while `load` reads an archive. For
   * any decoder that rejects the encoding of a bare reservation, a load
   * right after a successful save of a reservation finds nothing.
   */
  lemma SaveThenLoadFindsNothing(files: map<string, Data>, a: UserAccount, owner: Option<UserAccount>, r: SeatReservation,
                                 encode: SeatReservation -> Data, decode: Data -> Option<ReservationArchive>)
    requires forall x: SeatReservation :: decode(encode(x)).None?
    ensures Loaded(Saved(files, Some(a), owner, Some(r), encode), Some(a), decode) == (None, [])
  {
    assert decode(encode(r)).None?;
  }

  /** The store after the selection loop: re-scheduled for the reservation it picked, unchanged when it picked none. */
  function Rescheduled(p: map<Identifier, Alert>, seat: SeatNotificationSettings, picked: Option<SeatReservation>): map<Identifier, Alert> {
    if picked.Some? then Scheduled(p, seat, picked) else p
  }

  class ReservationManager {
    var account: Option<UserAccount>
    var reservation: Option<SeatReservation>
    var historys: seq<SeatReservation>
    /** The archive files of the shared group directory, by file name. */
    var files: map<string, Data>
    /** Every value handed to the companion watch, oldest first. */
    var transfers: seq<Option<SeatReservation>>
    /** Every request sent to the seat service, oldest first. */
    var requests: seq<Request>
    /** The reminder scheduler the `reservation` hook calls. */
    const notifications: NotificationManager
    const encode: SeatReservation -> Data
    const decode: Data -> Option<ReservationArchive>

    /** `init()`: starts from the account signed in at launch and loads its archive. */
    constructor (account: Option<UserAccount>, files: map<string, Data>, notifications: NotificationManager,
                 encode: SeatReservation -> Data, decode: Data -> Option<ReservationArchive>)
      modifies notifications`pending
      ensures this.account == account && this.files == files && this.requests == []
      ensures this.notifications == notifications && this.encode == encode && this.decode == decode
      ensures (reservation, historys) == Loaded(files, account, decode)
      ensures transfers == [reservation]
      ensures notifications.pending == Scheduled(old(notifications.pending), notifications.settings.seat, reservation)
    {
      this.account := account;
      this.files := files;
      this.notifications := notifications;
      this.encode := encode;
      this.decode := decode;
      this.reservation := None;
      this.historys := [];
      this.transfers := [];
      this.requests := [];
      new;
      Load();
    }

    /** An assignment to `reservation`, with its `didSet` hook: one `schedule` and one `transfer`. */
    method SetReservation(r: Option<SeatReservation>)
      modifies this`reservation, this`transfers, notifications`pending
      ensures reservation == r
      ensures transfers == old(transfers) + [r]
      ensures notifications.pending == Scheduled(old(notifications.pending), notifications.settings.seat, r)
    {
      reservation := r;
      notifications.Schedule(reservation);
      transfers := transfers + [reservation];
    }

    /** The `AccountLogout` observer: deletes the old account's archive; memory is left as it is. */
    method AccountLogout(oldAccount: Option<UserAccount>)
      modifies this`files
      ensures files == Deleted(old(files), oldAccount)
    {
      if oldAccount.None? {
        return;
      }
      DeleteFor(oldAccount);
    }

    /** The `AccountLogin` observer: switches account, clears memory, then loads the new account's archive. */
    method AccountLogin(newAccount: Option<UserAccount>)
      modifies this`account, this`reservation, this`historys, this`transfers, notifications`pending
      ensures newAccount.None? ==>
        && account == old(account) && reservation == old(reservation) && historys == old(historys)
        && transfers == old(transfers) && notifications.pending == old(notifications.pending)
      ensures newAccount.Some? ==>
        && account == newAccount
        && (reservation, historys) == Loaded(files, newAccount, decode)
        && transfers == old(transfers) + [None, reservation]
        && notifications.pending == Scheduled(Scheduled(old(notifications.pending), notifications.settings.seat, None),
                                              notifications.settings.seat, reservation)
    {
      if newAccount.None? {
        return;
      }
      account := newAccount;
      SetReservation(None);
      historys := [];
      Load();
    }

    method Load()
      modifies this`reservation, this`historys, this`transfers, notifications`pending
      ensures (reservation, historys) == Loaded(files, account, decode)
      ensures transfers == old(transfers) + [reservation]
      ensures notifications.pending == Scheduled(old(notifications.pending), notifications.settings.seat, reservation)
    {
      LoadFor(account);
    }

    /** `load(account:)`: a missing account, a missing file or an undecodable file all give (nil, []). */
    method LoadFor(acc: Option<UserAccount>)
      modifies this`reservation, this`historys, this`transfers, notifications`pending
      ensures (reservation, historys) == Loaded(files, acc, decode)
      ensures transfers == old(transfers) + [reservation]
      ensures notifications.pending == Scheduled(old(notifications.pending), notifications.settings.seat, reservation)
    {
      if acc.None? {
        SetReservation(None);
        historys := [];
        return;
      }
      var path := FileName(acc.value.username);
      if path !in files || decode(files[path]).None? {
        SetReservation(None);
        historys := [];
        return;
      }
      var archive := decode(files[path]).value;
      SetReservation(archive.reservation);
      historys := archive.historys;
    }

    method Save()
      modifies this`files
      ensures files == Saved(old(files), account, account, reservation, encode)
    {
      SaveFor(account);
    }

    /** `save(account:)`: writes the encoding of `reservation` alone, never `historys`. */
    method SaveFor(acc: Option<UserAccount>)
      modifies this`files
      ensures files == Saved(old(files), acc, account, reservation, encode)
    {
      if acc.None? {
        return;
      }
      if reservation.None? {
        Delete();
        return;
      }
      var data := encode(reservation.value);
      files := files[FileName(acc.value.username) := data];
    }

    method Delete()
      modifies this`files
      ensures files == Deleted(old(files), account)
    {
      DeleteFor(account);
    }

    /** `delete(account:)`: removing a file that is not there is not an error. */
    method DeleteFor(acc: Option<UserAccount>)
      modifies this`files
      ensures files == Deleted(old(files), acc)
    {
      if acc.None? {
        return;
      }
      files := files - {FileName(acc.value.username)};
    }

    /**
     * The selection loop: the first fetched reservation that is not history
     * becomes `reservation`; when there is none, nothing is assigned.
     */
    method AdoptFirstCurrent(list: seq<SeatReservation>)
      modifies this`reservation, this`transfers, notifications`pending
      ensures FirstCurrent(list).Some? ==>
        reservation == FirstCurrent(list) && transfers == old(transfers) + [reservation]
      ensures FirstCurrent(list).None? ==> reservation == old(reservation) && transfers == old(transfers)
      ensures notifications.pending == Rescheduled(old(notifications.pending), notifications.settings.seat, FirstCurrent(list))
    {
      var i := 0;
      while i < |list|
        invariant 0 <= i <= |list|
        invariant forall j | 0 <= j < i :: list[j].isHistory
        invariant reservation == old(reservation) && transfers == old(transfers)
        invariant notifications.pending == old(notifications.pending)
      {
        if !list[i].isHistory {
          FirstCurrentAt(list, i);
          SetReservation(Some(list[i]));
          break;
        }
        i := i + 1;
      }
    }

    /**
     * `refresh`: requests page 1 of the history. On success the history is
     * the fetched list, the current reservation is its first entry that is
     * not history (or nil), the result is saved and returned; any other
     * outcome is passed through and nothing changes.
     */
    method Refresh(response: SeatResponse<seq<SeatReservation>>) returns (result: SeatResponse<Option<SeatReservation>>)
      modifies this`reservation, this`historys, this`transfers, this`files, this`requests, notifications`pending
      ensures requests == old(requests) + [FetchHistory(1)]
      ensures !response.Success? ==>
        && result == Forwarded(response)
        && reservation == old(reservation) && historys == old(historys) && files == old(files)
        && transfers == old(transfers) && notifications.pending == old(notifications.pending)
      ensures response.Success? ==>
        && historys == response.value
        && reservation == FirstCurrent(response.value)
        && result == Success(reservation)
        && files == Saved(old(files), account, account, reservation, encode)
        && transfers == old(transfers) + [None] + (if reservation.Some? then [reservation] else [])
        && notifications.pending == Rescheduled(Scheduled(old(notifications.pending), notifications.settings.seat, None),
                                                notifications.settings.seat, reservation)
    {
      requests := requests + [FetchHistory(1)];
      match response {
        case Error(e) =>
          result := Error(e);
        case Failed(f) =>
          result := Failed(f);
        case RequireLogin =>
          result := RequireLogin;
        case Success(reservations) =>
          SetReservation(None);
          historys := reservations;
          AdoptFirstCurrent(reservations);
          Save();
          result := Success(reservation);
      }
    }

    /**
     * `cancel`: with no current reservation it succeeds at once, sending
     * nothing. Otherwise it asks the service to cancel the current one; on
     * success the reservation is cleared and the account's archive deleted,
     * on any other outcome nothing changes.
     */
    method CancelReservation(response: SeatResponse<()>) returns (result: SeatResponse<()>)
      modifies this`reservation, this`transfers, this`files, this`requests, notifications`pending
      ensures old(reservation).None? ==>
        && result == Success(())
        && requests == old(requests) && reservation == old(reservation) && files == old(files)
        && transfers == old(transfers) && notifications.pending == old(notifications.pending)
      ensures old(reservation).Some? ==> requests == old(requests) + [Cancel(old(reservation).value)]
      ensures old(reservation).Some? && response.Success? ==>
        && result == Success(())
        && reservation == None
        && files == Deleted(old(files), account)
        && transfers == old(transfers) + [None]
        && notifications.pending == Scheduled(old(notifications.pending), notifications.settings.seat, None)
      ensures old(reservation).Some? && !response.Success? ==>
        && result == response
        && reservation == old(reservation) && files == old(files)
        && transfers == old(transfers) && notifications.pending == old(notifications.pending)
    {
      if reservation.None? {
        result := Success(());
        return;
      }
      requests := requests + [Cancel(reservation.value)];
      match response {
        case Error(e) =>
          result := Error(e);
        case Failed(f) =>
          result := Failed(f);
        case RequireLogin =>
          result := RequireLogin;
        case Success(_) =>
          SetReservation(None);
          Delete();
          result := Success(());
      }
    }

    /**
     * `fetch(page:)`: passes the outcome on first. Only a successful answer
     * for page 0 changes anything: the history becomes the fetched list and
     * the first entry that is not history, if any, becomes the current
     * reservation. Nothing is saved.
     */
    method Fetch(page: int, response: SeatResponse<seq<SeatReservation>>) returns (forwarded: SeatResponse<seq<SeatReservation>>)
      modifies this`reservation, this`historys, this`transfers, this`requests, notifications`pending
      ensures forwarded == response
      ensures requests == old(requests) + [FetchHistory(page)]
      ensures !(page == 0 && response.Success?) ==>
        && reservation == old(reservation) && historys == old(historys)
        && transfers == old(transfers) && notifications.pending == old(notifications.pending)
      ensures page == 0 && response.Success? ==>
        && historys == response.value
        && reservation == (if FirstCurrent(response.value).Some? then FirstCurrent(response.value) else old(reservation))
        && transfers == old(transfers) + (if FirstCurrent(response.value).Some? then [FirstCurrent(response.value)] else [])
        && notifications.pending == Rescheduled(old(notifications.pending), notifications.settings.seat, FirstCurrent(response.value))
    {
      requests := requests + [FetchHistory(page)];
      forwarded := response;
      if page == 0 && response.Success? {
        historys := response.value;
        AdoptFirstCurrent(response.value);
      }
    }
  }
}
