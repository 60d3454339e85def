/**
 "Does this user exist?": user-service behind a Redis cache
 (services/order-service/src/users/user-directory.service.ts, services/order-service/src/infra/cache.service.ts).
 Redis faults, HTTP replies and the clock are parameters of the calls.
 */
module Directory {
  import opened Common
  import opened Uuid

  const ATTEMPTS := 2

  datatype Reply = Status(code: int) | NetworkError

  datatype Verdict = Found | Missing | TryAgain | GiveUp

  /** What one reply of user-service means for the lookup. */
  function Judge(reply: Reply): Verdict {
    match reply
    case NetworkError => TryAgain
    case Status(code) =>
      if code == 200 then Found
      else if code == 404 then Missing
      else if code < 500 then GiveUp
      else TryAgain
  }

  /** user-service answers from its table `users`, which holds canonical ids. */
  predicate Truthful(reply: Reply, userId: string, users: set<string>) {
    && (reply == Status(200) ==> Canonical(userId) in users)
    && (reply == Status(404) ==> Canonical(userId) !in users)
  }

  /** The reply leaves the question open and asking again may help: a network error or a server error. */
  predicate WorthARetry(reply: Reply) {
    reply.NetworkError? || reply.code >= 500
  }

  /** Of two replies, the one with status `code` comes first or follows one that was worth a retry. */
  predicate Answers(replies: seq<Reply>, code: int)
    requires |replies| == 2
  {
    replies[0] == Status(code) || (WorthARetry(replies[0]) && replies[1] == Status(code))
  }

  /** fetchExists: None stands for the 503 it throws. */
  method FetchExists(replies: seq<Reply>) returns (answer: Option<bool>, used: nat)
    requires |replies| == 2
    ensures answer == Some(true) <==> Answers(replies, 200)
    ensures answer == Some(false) <==> Answers(replies, 404)
    ensures used == if WorthARetry(replies[0]) then 2 else 1
  {
    answer := None;
    used := 0;
    while used < ATTEMPTS
      invariant 0 <= used <= ATTEMPTS
      invariant forall j :: 0 <= j < used ==> Judge(replies[j]) == TryAgain
      invariant answer == None
    {
      var verdict := Judge(replies[used]);
      used := used + 1;
      if verdict != TryAgain {
        match verdict {
          case Found => answer := Some(true);
          case Missing => answer := Some(false);
          case GiveUp =>
        }
        return;
      }
    }
  }

  const PREFIX := "user:"

  function CacheKey(userId: string): string {
    PREFIX + userId
  }

  lemma CacheKeyIsInjective(a: string, b: string)
    requires CacheKey(a) == CacheKey(b)
    ensures a == b
  {
    assert CacheKey(a)[|PREFIX|..] == a && CacheKey(b)[|PREFIX|..] == b;
  }

  datatype Entry = Entry(value: string, expiresAt: int)

  /** A failing `SET` may or may not have reached the server. */
  datatype Fault = NoFault | LostBefore | LostAfter

  class CacheService {
    var entries: map<string, Entry>
    var now: int

    constructor ()
      ensures entries == map[]
    {
      entries := map[];
      now := 0;
    }

    /** The keys a reader can still see. */
    ghost function Live(): set<string>
      reads this
    {
      set k | k in entries && now < entries[k].expiresAt
    }

    method Get(key: string, fault: bool) returns (value: Option<string>)
      ensures value.Some? <==> !fault && key in Live()
      ensures value.Some? ==> value.value == entries[key].value
    {
      value := if !fault && key in entries && now < entries[key].expiresAt then Some(entries[key].value) else None;
    }

    method Set(key: string, value: string, ttlSeconds: nat, fault: Fault)
      modifies this`entries
      ensures entries == if fault == LostBefore then old(entries) else old(entries)[key := Entry(value, now + ttlSeconds)]
    {
      if fault != LostBefore {
        entries := entries[key := Entry(value, now + ttlSeconds)];
      }
    }

    method Elapse(seconds: nat)
      modifies this`now
      ensures now == old(now) + seconds
      ensures Live() <= old(Live())
    {
      now := now + seconds;
    }
  }

  /** What happens to the cache: a write, with its fault, or time passing. */
  datatype CacheEvent = Write(key: string, value: string, ttlSeconds: nat, fault: Fault) | Pass(seconds: nat)

  /**
   What a reader of `key` sees after the events, if `age` seconds have passed since: the value of the last write that
   was not lost, while that write is younger than its time to live. No store and no clock is involved.
   */
  function LastSeen(events: seq<CacheEvent>, key: string, age: nat): Option<string> {
    if events == [] then None
    else
      var earlier := events[..|events| - 1];
      match events[|events| - 1]
      case Pass(seconds) => LastSeen(earlier, key, age + seconds)
      case Write(k, value, ttl, fault) =>
        if k != key || fault == LostBefore then LastSeen(earlier, key, age)
        else if age < ttl then Some(value)
        else None
  }

  /** The part of the cache that concerns `key` agrees with the events, now and at any later time. */
  ghost predicate Reflects(cache: CacheService, events: seq<CacheEvent>, key: string)
    reads cache
  {
    forall age: nat :: LastSeen(events, key, age) ==
      if key in cache.entries && cache.now + age < cache.entries[key].expiresAt then Some(cache.entries[key].value) else None
  }

  /** For every history of writes, faults and waiting, a read answers what the history says, or nothing on a fault. */
  method ReadAfter(events: seq<CacheEvent>, key: string, fault: bool) returns (value: Option<string>)
    ensures value == if fault then None else LastSeen(events, key, 0)
  {
    var cache := new CacheService();
    for i := 0 to |events|
      invariant Reflects(cache, events[..i], key)
    {
      assert events[..i + 1][..i] == events[..i];
      match events[i] {
        case Write(k, v, ttl, f) => cache.Set(k, v, ttl, f);
        case Pass(seconds) => cache.Elapse(seconds);
      }
    }
    assert events[..|events|] == events;
    value := cache.Get(key, fault);
  }

  /** Every user id a reader can see in the cache belongs to a user. */
  ghost predicate Sound(cache: CacheService, users: set<string>)
    reads cache
  {
    forall id :: CacheKey(id) in cache.Live() ==> Canonical(id) in users
  }

  class UserDirectory {
    const cache: CacheService
    const ttlSeconds: nat

    constructor (cache: CacheService, ttlSeconds: nat)
      ensures this.cache == cache && this.ttlSeconds == ttlSeconds
    {
      this.cache := cache;
      this.ttlSeconds := ttlSeconds;
    }

    /**
     exists. `asked` are the users when the call starts and `tables[i]` those when reply i is computed; users are
     only ever inserted. For every schedule of faults the cached answer is the one the uncached lookup gives on the
     same replies, whenever that one answers at all, and the cache stays sound.
     */
    method Exists(userId: string, getFault: bool, setFault: Fault, replies: seq<Reply>,
                  ghost asked: set<string>, ghost tables: seq<set<string>>)
      returns (answer: Option<bool>)
      requires |replies| == |tables| == 2 && asked <= tables[0] <= tables[1]
      requires Truthful(replies[0], userId, tables[0]) && Truthful(replies[1], userId, tables[1])
      requires Sound(cache, asked)
      modifies cache`entries
      ensures Sound(cache, tables[1])
      ensures Answers(replies, 200) ==> answer == Some(true)
      ensures Answers(replies, 404) ==> answer == Some(false)
      ensures answer == Some(false) ==> Answers(replies, 404)
      ensures answer == Some(true) ==> Canonical(userId) in tables[1]
      // A visible entry answers by itself; only an answer of user-service, and only a positive one, is written.
      ensures var hit := "user:" + userId in old(cache.Live()) && !getFault;
              && (hit ==> answer == Some(true))
              && cache.entries ==
                 if hit || answer != Some(true) || setFault == LostBefore then old(cache.entries)
                 else old(cache.entries)["user:" + userId := Entry("1", cache.now + ttlSeconds)]
    {
      var key := CacheKey(userId);
      var hit := cache.Get(key, getFault);
      if hit.Some? {
        return Some(true);
      }
      var used;
      answer, used := FetchExists(replies);
      if answer == Some(true) {
        cache.Set(key, "1", ttlSeconds, setFault);
        forall id | CacheKey(id) in cache.Live()
          ensures Canonical(id) in tables[1]
        {
          if CacheKey(id) == key {
            CacheKeyIsInjective(id, userId);
          } else {
            assert CacheKey(id) in old(cache.Live());
          }
        }
      }
    }
  }
}
