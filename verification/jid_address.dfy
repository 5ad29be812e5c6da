/** The phone number the scheduling flow attaches to a booking: the part of the
    counterpart's address before its first '@', as `jid.split('@')[0]`. */
module JidAddress {

  /** `jid.split('@')[0]`: the longest prefix of `jid` without an '@'. */
  function PhoneOf(jid: string): (p: string)
    ensures |p| <= |jid| && p == jid[..|p|]
    ensures '@' !in p
    ensures |p| == |jid| || jid[|p|] == '@'
  {
    if jid == [] || jid[0] == '@' then [] else [jid[0]] + PhoneOf(jid[1..])
  }

  /** For an address `user@server` whose user part has no '@', the phone is
      exactly the user part, whatever the server part holds. */
  lemma {:induction false} PhoneOfAddress(user: string, server: string)
    requires '@' !in user
    ensures PhoneOf(user + "@" + server) == user
  {
    if user != [] {
      assert (user + "@" + server)[1..] == user[1..] + "@" + server;
      PhoneOfAddress(user[1..], server);
    }
  }

  /** An address without any '@' is returned whole. */
  lemma {:induction false} PhoneOfBare(jid: string)
    requires '@' !in jid
    ensures PhoneOf(jid) == jid
  {
    if jid != [] {
      PhoneOfBare(jid[1..]);
    }
  }
}
