/** Daily attendance: the first mark of a day checks the user in, the
    second checks them out, and any later one is refused. A user's record for
    the day is found by a range query over that day's window. */
module Attendance {
  import opened Common

  datatype AttendanceStatus = Present | Absent | Leave | HalfDay

  datatype AttendanceRecord = AttendanceRecord(
    user: Id,
    date: Time,
    status: AttendanceStatus,
    checkInTime: Option<Time>,
    checkOutTime: Option<Time>,
    notes: Option<string>)

  const MsPerDay: int := 86_400_000

  /** `setHours(0, 0, 0, 0)` on the current time. */
  function StartOfDay(now: Time): Time {
    now - now % MsPerDay
  }

  /** `setHours(23, 59, 59, 999)` on the current time. */
  function EndOfDay(now: Time): Time {
    StartOfDay(now) + MsPerDay - 1
  }

  /** The day a time falls on, counted from the epoch. */
  function DayOf(t: Time): int {
    t / MsPerDay
  }

  /** The `[startOfDay, endOfDay]` window holds exactly the times of the
      same day as `now`. */
  lemma {:induction false} WindowIsDay(t: Time, now: Time)
    ensures StartOfDay(now) <= t <= EndOfDay(now) <==> DayOf(t) == DayOf(now)
  {
    var d := DayOf(now);
    assert StartOfDay(now) == MsPerDay * d;
    var e := DayOf(t);
    assert MsPerDay * e <= t < MsPerDay * e + MsPerDay;
    if e < d {
      assert MsPerDay * e + MsPerDay <= MsPerDay * d;
    } else if e > d {
      assert MsPerDay * d + MsPerDay <= MsPerDay * e;
    }
  }

  /** The query `{ user, date: { $gte: startOfDay, $lte: endOfDay } }`. */
  predicate MarkedToday(rec: AttendanceRecord, user: Id, now: Time) {
    rec.user == user && StartOfDay(now) <= rec.date <= EndOfDay(now)
  }

  /** `findOne` over the collection in its natural (insertion) order: the
      first matching record. */
  function FindToday(records: seq<AttendanceRecord>, user: Id, now: Time): (r: Option<nat>)
    ensures r.Some? ==> r.value < |records| && MarkedToday(records[r.value], user, now)
    ensures r.Some? ==> forall k :: 0 <= k < r.value ==> !MarkedToday(records[k], user, now)
    ensures r.None? ==> forall k :: 0 <= k < |records| ==> !MarkedToday(records[k], user, now)
  {
    if |records| == 0 then None
    else if MarkedToday(records[0], user, now) then Some(0)
    else
      var rest := FindToday(records[1..], user, now);
      if rest.Some? then Some(rest.value + 1) else None
  }

  /** A record appended after records that do not match is the one found. */
  lemma FindAppended(before: seq<AttendanceRecord>, rec: AttendanceRecord, user: Id, now: Time)
    requires forall k :: 0 <= k < |before| ==> !MarkedToday(before[k], user, now)
    requires MarkedToday(rec, user, now)
    ensures FindToday(before + [rec], user, now) == Some(|before|)
  {
    assert forall k :: 0 <= k < |before| ==> (before + [rec])[k] == before[k];
    assert (before + [rec])[|before|] == rec;
  }

  /** At most one record per user per day: the invariant the handler keeps
      (the index on user and date does not enforce it). */
  predicate OnePerUserPerDay(records: seq<AttendanceRecord>) {
    forall i, j :: 0 <= i < j < |records| && records[i].user == records[j].user ==>
      DayOf(records[i].date) != DayOf(records[j].date)
  }

  class AttendanceLog {
    var records: seq<AttendanceRecord>

    ghost predicate Valid()
      reads this
    {
      OnePerUserPerDay(records)
    }

    constructor ()
      ensures Valid() && records == []
    {
      records := [];
    }

    /** markAttendance for `user` at time `now`. `status` is present only when
        the request carries a truthy one. */
    method MarkAttendance(user: Id, status: Option<AttendanceStatus>, notes: Option<string>, now: Time)
      returns (r: Result<AttendanceRecord>)
      requires Valid()
      modifies this
      ensures Valid()
      ensures FindToday(old(records), user, now).None? ==>
        && r == Ok(AttendanceRecord(user, now, status.GetOr(Present), Some(now), None, notes))
        && records == old(records) + [r.value]
      ensures FindToday(old(records), user, now).Some? ==>
        var i := FindToday(old(records), user, now).value;
        var rec := old(records)[i];
        && (rec.checkOutTime.Some? ==>
              r == Err(Failure(400, "You have already checked out for today")) && records == old(records))
        && (rec.checkOutTime.None? ==>
              && r == Ok(rec.(checkOutTime := Some(now),
                              notes := if Truthy(notes) then notes else rec.notes,
                              status := status.GetOr(rec.status)))
              && records == old(records)[i := r.value])
    {
      var found := FindToday(records, user, now);
      if found.Some? {
        var i := found.value;
        var existing := records[i];
        if existing.checkOutTime.Some? {
          return Err(Failure(400, "You have already checked out for today"));
        }
        existing := existing.(checkOutTime := Some(now));
        if Truthy(notes) {
          existing := existing.(notes := notes);
        }
        if status.Some? {
          existing := existing.(status := status.value);
        }
        records := records[i := existing];
        r := Ok(existing);
      } else {
        var attendance := AttendanceRecord(user, now, status.GetOr(Present), Some(now), None, notes);
        forall k | 0 <= k < |records| && records[k].user == user
          ensures DayOf(records[k].date) != DayOf(now)
        {
          WindowIsDay(records[k].date, now);
        }
        records := records + [attendance];
        r := Ok(attendance);
      }
    }
  }

  /** Three marks by one user within one day: check-in, then check-out (with
      the check-in time kept), then the "already checked out" refusal. */
  method ThreeMarksOneDay(log: AttendanceLog, user: Id, t1: Time, t2: Time, t3: Time)
    returns (first: Result<AttendanceRecord>, second: Result<AttendanceRecord>, third: Result<AttendanceRecord>)
    requires log.Valid() && FindToday(log.records, user, t1).None?
    requires DayOf(t1) == DayOf(t2) == DayOf(t3)
    modifies log
    ensures first.Ok? && first.value.checkInTime == Some(t1) && first.value.checkOutTime.None?
    ensures second.Ok? && second.value.checkInTime == Some(t1) && second.value.checkOutTime == Some(t2)
    ensures third == Err(Failure(400, "You have already checked out for today"))
    ensures |log.records| == |old(log.records)| + 1 && log.records[..|old(log.records)|] == old(log.records)
  {
    ghost var before := log.records;
    first := log.MarkAttendance(user, None, None, t1);
    WindowIsDay(t1, t2);
    WindowIsDay(t1, t3);
    forall k | 0 <= k < |before|
      ensures !MarkedToday(before[k], user, t2) && !MarkedToday(before[k], user, t3)
    {
      WindowIsDay(before[k].date, t1);
      WindowIsDay(before[k].date, t2);
      WindowIsDay(before[k].date, t3);
    }
    assert log.records == before + [first.value];
    FindAppended(before, first.value, user, t2);
    second := log.MarkAttendance(user, None, None, t2);
    assert log.records == before + [second.value];
    FindAppended(before, second.value, user, t3);
    third := log.MarkAttendance(user, None, None, t3);
  }
}
