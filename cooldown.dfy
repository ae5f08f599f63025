/**
 * The per-user cooldown of `/ping`: a caller needs the "Mention Everyone"
 * permission, may ping at most once per 60-second window, and pings one of
 * five fixed roles. `ping_cooldowns` maps a user to the time of their last
 * accepted call; an unseen user counts as last seen at time 0. Timestamps
 * are whole seconds.
 */
module Cooldown {
  import opened Wrappers

  type UserId = int

  /** The length of the cooldown window, in seconds. */
  const Window: int := 60

  /** `ROLE_IDS`: the role each ping kind mentions. */
  const RoleIds: map<string, int> := map[
    "giveaway" := 1398070710211182602,
    "botupdate" := 1398070660844228669,
    "video" := 1398070755698413698,
    "announcement" := 1398070616694853842,
    "quickdrop" := 1399107782216646757
  ]

  /** The five kinds the command offers as choices. */
  const Kinds: seq<string> := ["giveaway", "botupdate", "video", "announcement", "quickdrop"]

  /** What `/ping` answers. */
  datatype PingReply =
    | MissingPermission      // "You need `Mention Everyone` permission in this channel."
    | Wait(seconds: int)     // "You must wait <seconds>s before using this command again."
    | RoleNotFound           // "Role not found."
    | Mention(roleId: int)   // "<@&<roleId>>"

  /** The reply and the cooldown record after one call. */
  datatype PingResult = PingResult(reply: PingReply, record: map<UserId, int>)

  /** `ping_cooldowns.get(user, 0)`. */
  function LastUsed(record: map<UserId, int>, user: UserId): int {
    if user in record then record[user] else 0
  }

  /** `ROLE_IDS.get(kind)`, where a missing or zero id counts as not found. */
  function RoleFor(kind: string): Option<int> {
    if kind in RoleIds && RoleIds[kind] != 0 then Some(RoleIds[kind]) else None
  }

  /**
   * One call of `/ping` by `user` at time `now`. Without the permission it
   * answers so and changes nothing. Otherwise it refuses, with the seconds
   * left, exactly when less than a window has passed since the user's last
   * accepted call, and then changes nothing; else it records `now` for the
   * user, before and whatever the role lookup finds, and touches no other
   * user's record.
   */
  function Decide(record: map<UserId, int>, user: UserId, now: int, canMention: bool, kind: string): (r: PingResult)
    ensures !canMention ==> r == PingResult(MissingPermission, record)
    ensures canMention ==> (r.reply.Wait? <==> now - LastUsed(record, user) < Window)
    ensures r.reply.Wait? ==> r.reply.seconds == Window - (now - LastUsed(record, user)) && r.record == record
    ensures canMention && !r.reply.Wait? ==>
      && LastUsed(r.record, user) == now
      && (forall other :: other != user ==> LastUsed(r.record, other) == LastUsed(record, other))
      && r.record.Keys == record.Keys + {user}
      && r.reply == (match RoleFor(kind) case Some(id) => Mention(id) case None => RoleNotFound)
  {
    if !canMention then PingResult(MissingPermission, record)
    else
      var last := LastUsed(record, user);
      if now - last < Window then PingResult(Wait(Window - (now - last)), record)
      else
        var updated := record[user := now];
        match RoleFor(kind)
        case None => PingResult(RoleNotFound, updated)
        case Some(id) => PingResult(Mention(id), updated)
  }

  /** Every kind the command offers names a role, so a call that passes the cooldown always mentions it. */
  lemma OfferedKindsFound(kind: string)
    requires kind in Kinds
    ensures RoleFor(kind).Some? && RoleFor(kind).value == RoleIds[kind]
  {
  }

  /** With whole-second clocks, a refusal tells how long is left: between 1 and 60 seconds, unless the clock has gone back. */
  lemma WaitBounds(record: map<UserId, int>, user: UserId, now: int, canMention: bool, kind: string)
    requires LastUsed(record, user) <= now
    requires Decide(record, user, now, canMention, kind).reply.Wait?
    ensures 1 <= Decide(record, user, now, canMention, kind).reply.seconds <= Window
  {
  }

  /**
   * A user without a record counts as last seen at time 0: their first call is
   * accepted at any time from 60 on, and refused before that.
   */
  lemma FirstCall(record: map<UserId, int>, user: UserId, now: int, kind: string)
    requires user !in record
    ensures Decide(record, user, now, true, kind).reply.Wait? <==> now < Window
  {
  }

  /** A second call within the window after an accepted one is refused with the time left; a refused call does not restart the window. */
  lemma SecondCallWithinWindow(record: map<UserId, int>, user: UserId, t: int, kind: string, t': int, kind': string)
    requires !Decide(record, user, t, true, kind).reply.Wait?
    requires t <= t' < t + Window
    ensures var after := Decide(record, user, t, true, kind).record;
      var second := Decide(after, user, t', true, kind');
      second.reply == Wait(Window - (t' - t)) && second.record == after
  {
  }

  /** Once a full window has passed since an accepted call, the next call is accepted and restarts the window. */
  lemma CallAfterWindow(record: map<UserId, int>, user: UserId, t: int, kind: string, t': int, kind': string)
    requires !Decide(record, user, t, true, kind).reply.Wait?
    requires t + Window <= t'
    ensures var after := Decide(record, user, t, true, kind).record;
      var second := Decide(after, user, t', true, kind');
      !second.reply.Wait? && LastUsed(second.record, user) == t'
  {
  }

  /** Users do not share a cooldown: a call by one user does not change what another user's call gets. */
  lemma UsersIndependent(record: map<UserId, int>, user: UserId, t: int, canMention: bool, kind: string,
                         other: UserId, t': int, canMention': bool, kind': string)
    requires other != user
    ensures var after := Decide(record, user, t, canMention, kind).record;
      Decide(after, other, t', canMention', kind').reply == Decide(record, other, t', canMention', kind').reply
  {
    var after := Decide(record, user, t, canMention, kind).record;
    assert LastUsed(after, other) == LastUsed(record, other);
  }

  /** The process-wide `ping_cooldowns` dictionary. */
  class PingCooldowns {
    var lastUsed: map<UserId, int>

    constructor()
      ensures lastUsed == map[]
    {
      lastUsed := map[];
    }

    /** `/ping`: answers and updates the record as `Decide` says. */
    method Ping(user: UserId, now: int, canMention: bool, kind: string) returns (reply: PingReply)
      modifies this
      ensures PingResult(reply, lastUsed) == Decide(old(lastUsed), user, now, canMention, kind)
    {
      if !canMention {
        return MissingPermission;
      }
      var last := if user in lastUsed then lastUsed[user] else 0;
      if now - last < Window {
        return Wait(Window - (now - last));
      }
      lastUsed := lastUsed[user := now];
      if kind in RoleIds && RoleIds[kind] != 0 {
        reply := Mention(RoleIds[kind]);
      } else {
        reply := RoleNotFound;
      }
    }
  }
}
