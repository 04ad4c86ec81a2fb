/** The Redis keys of the presence protocol: one hash, and one expiring key per user. */
module TtlKeys {
  import opened Strings

  const USER_STATUS_HASH_KEY := "stay:user:status"
  const USER_STATUS_HASH_TTL_KEY := USER_STATUS_HASH_KEY + ":ttl:"

  /** User ids are UUIDs (`users.id`), so they hold no colon. */
  type Uid = s: string | ':' !in s

  function TtlKey(uid: string): string
  {
    USER_STATUS_HASH_TTL_KEY + uid
  }

  predicate IsTtlKey(key: string)
  {
    USER_STATUS_HASH_TTL_KEY <= key
  }

  /** `expiredKey.split(':')[4]`. */
  function UidOfKey(key: string): (uid: Uid)
    requires IsTtlKey(key)
  {
    KeyPieces(key[|USER_STATUS_HASH_TTL_KEY|..]);
    assert key == TtlKey(key[|USER_STATUS_HASH_TTL_KEY|..]);
    Split(key, ':')[4]
  }

  /** The keys that the expiry handler takes for a user's, letter by letter, and whom it reads out of them. */
  lemma {:induction false} StatusKey(key: string)
    ensures IsTtlKey(key) <==> "stay:user:status:ttl:" <= key
    ensures IsTtlKey(key) <==> exists uid :: key == "stay:user:status:ttl:" + uid
    ensures forall uid :: key == "stay:user:status:ttl:" + uid && ':' !in uid ==> UidOfKey(key) == uid
  {
    var prefix := "stay:user:status:ttl:";
    if prefix <= key {
      assert key == prefix + key[|prefix|..];
    }
    forall uid | key == prefix + uid && ':' !in uid
      ensures IsTtlKey(key) && UidOfKey(key) == uid
    {
      assert key == TtlKey(uid);
      KeyRoundTrip(uid);
    }
  }

  lemma KeyPieces(uid: string)
    ensures Split(TtlKey(uid), ':') == ["stay", "user", "status", "ttl"] + Split(uid, ':')
  {
    hide Split;
    var ttl := "ttl" + [':'] + uid;
    var status := "status" + [':'] + ttl;
    var user := "user" + [':'] + status;
    assert TtlKey(uid) == "stay" + [':'] + user;
    SplitFirst("stay", user, ':');
    SplitFirst("user", status, ':');
    SplitFirst("status", ttl, ':');
    SplitFirst("ttl", uid, ':');
  }

  /**
  The expiry handler reads back, for any string used as a uid, the part before
  its first colon: the uid itself exactly when it has none.
  */
  lemma KeyRoundTrip(uid: string)
    ensures IsTtlKey(TtlKey(uid))
    ensures UidOfKey(TtlKey(uid)) == uid <==> ':' !in uid
    ensures UidOfKey(TtlKey(uid)) == uid || UidOfKey(TtlKey(uid)) + ":" <= uid
  {
    KeyPieces(uid);
    var pieces := Split(uid, ':');
    if ':' !in uid {
      SplitFirst(uid, "", ':');
    }
    assert Join(pieces, ':') == uid;
  }

  /** No two users share a key. */
  lemma TtlKeysDistinct(uid: string, other: string)
    requires TtlKey(uid) == TtlKey(other)
    ensures uid == other
  {
    var n := |USER_STATUS_HASH_TTL_KEY|;
    assert uid == TtlKey(uid)[n..] && other == TtlKey(other)[n..];
  }
}
