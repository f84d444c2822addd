/** The token file of `datus/auth/token_storage.py`: what `save` derives and when
    `is_expired` says a stored record needs a refresh. Times are seconds as reals. */
module TokenStorage {
  import opened Wrappers

  const TOKEN_REFRESH_INTERVAL_SECONDS: real := 691200.0
  const EXPIRY_BUFFER_SECONDS: real := 60.0

  /** One key of the JSON record: missing, null (or another falsy value), readable as a
      number or timestamp, or present but unreadable. */
  datatype Field = Absent | Null | Number(n: real) | Junk

  datatype Tokens = Tokens(
    access: Option<string>,
    refresh: Option<string>,
    expiresIn: Field,
    expiresAt: Field,
    lastRefresh: Field)

  /** The record `save` writes at time `now`. */
  function Saved(t: Tokens, now: real): Tokens {
    var stamped := if t.lastRefresh.Absent? then t.(lastRefresh := Number(now)) else t;
    if stamped.expiresAt.Absent? && stamped.expiresIn.Number?
    then stamped.(expiresAt := Number(now + stamped.expiresIn.n))
    else stamped
  }

  /** What a load of the file sees. */
  function Read(file: Option<Tokens>, readable: bool): Option<Tokens> {
    if readable then file else None
  }

  predicate IsExpired(stored: Option<Tokens>, now: real) {
    match stored
    case None => true
    case Some(t) =>
      if t.expiresAt.Number? then now >= t.expiresAt.n - EXPIRY_BUFFER_SECONDS
      else if t.lastRefresh.Number? then now - t.lastRefresh.n >= TOKEN_REFRESH_INTERVAL_SECONDS
      else true
  }

  /** Waiting never turns an expired record into a usable one. */
  lemma ExpiryIsMonotone(stored: Option<Tokens>, now: real, later: real)
    requires now <= later && IsExpired(stored, now)
    ensures IsExpired(stored, later)
  {
  }

  /** How long a saved server reply stays usable: until the server's own timestamp less the
      buffer if it sent one; else for the server's lifetime less the buffer when it gave one; else
      for the fixed interval after the last refresh, which is the save unless the reply says
      otherwise; and never after a refresh at a time that cannot be read. */
  lemma LifetimeAfterSave(t: Tokens, saved: real, now: real)
    ensures !IsExpired(Some(Saved(t, saved)), now) <==>
            match (t.expiresAt, t.expiresIn, t.lastRefresh)
            case (Number(at), _, _) => now < at - 60.0
            case (Absent, Number(lifetime), _) => now < saved + lifetime - 60.0
            case (_, _, Absent) => now < saved + 691200.0
            case (_, _, Number(stamp)) => now < stamp + 691200.0
            case _ => false
    ensures var kept := Saved(t, saved); kept.access == t.access && kept.refresh == t.refresh
    ensures IsExpired(None, now)
  {
  }

  /** The storage object: one file, replaced or removed as a whole. */
  class Store {
    var file: Option<Tokens>

    constructor (initial: Option<Tokens>)
      ensures file == initial
    {
      file := initial;
    }

    /** An OSError while reading reads as an absent file. */
    method Load(readable: bool) returns (t: Option<Tokens>)
      ensures t == if readable then file else None
    {
      t := if readable then file else None;
    }

    /** An OSError while writing leaves the old file in place and is raised. */
    method Save(t: Tokens, now: real, diskOk: bool) returns (ok: bool)
      modifies this
      ensures ok == diskOk
      ensures file == if diskOk then Some(Saved(t, now)) else old(file)
    {
      var record := t;
      if record.lastRefresh.Absent? {
        record := record.(lastRefresh := Number(now));
      }
      if !record.expiresIn.Absent? && record.expiresAt.Absent? {
        if record.expiresIn.Number? {
          record := record.(expiresAt := Number(now + record.expiresIn.n));
        }
      }
      if diskOk {
        file := Some(record);
      }
      ok := diskOk;
    }

    /** An OSError while removing is logged and swallowed. */
    method Clear(diskOk: bool)
      modifies this
      ensures file == if diskOk then None else old(file)
    {
      if diskOk {
        file := None;
      }
    }
  }
}
