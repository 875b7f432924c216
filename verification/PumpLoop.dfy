/** The Redis pump of xmlrcsd: what one round of its loop does to the list and to the clients.
    src/xmlrcsd/main.cpp. */
module PumpLoop {
  import opened RedisQueue
  import opened Registry

  /** One round on the list; a text that is empty counts as no item. */
  method Round(redis: RedisList, daemon: Daemon, now: int, auto_kill: bool) returns (restart: bool)
    requires redis.Valid() && daemon.Valid()
    modifies redis, daemon`total_io, daemon`last_io, daemon.clients`OutgoingBuffer
    ensures redis.Valid() && redis.View() == Do(old(redis.View()), Rpop) && redis.pushed == old(redis.pushed)
    ensures var reply, stale := Reply(old(redis.items)), now > old(daemon.last_io) + 12;
            && daemon.total_io == old(daemon.total_io) + (if reply != "" then 1 else 0)
            && daemon.last_io == (if reply != "" || stale then now else old(daemon.last_io))
            && (restart <==> auto_kill && reply == "" && stale)
            && forall c | c in daemon.clients ::
                 c.OutgoingBuffer == old(c.OutgoingBuffer) + Due1(c.View(), reply, stale, auto_kill)
  {
    var popped := redis.RPop();
    restart := daemon.OnReply(if popped.Some? then popped.value else "", now, auto_kill);
  }
}
