/** Player accounts of the auth service: registering a player by email and
    renaming a player.  Password hashing is a library call; it is a
    function parameter `hash` here, so that the model can say where a hash
    is stored without saying how it is computed. */
module Accounts {
  import opened Common

  datatype AuthType = SteamAuth | EmailAuth

  datatype Account = Account(uid: Id, name: string, steamId: string, email: Option<string>,
                             authType: AuthType, passwordHash: Option<string>)

  /** `PlayerEmailCreate`. */
  datatype EmailSignup = EmailSignup(name: string, email: string, password: string, steamId: string)

  /** `PlayerUpdate` as the update route receives it: the later of the two
      schemas of that name, which carries a name and nothing else. */
  datatype PlayerUpdate = PlayerUpdate(name: string)

  datatype AccountError = EmailTaken

  /** No two accounts share an email or a uid. */
  predicate UniqueAccounts(players: seq<Account>)
  {
    forall i, j :: 0 <= i < j < |players| ==>
      players[i].uid != players[j].uid && (players[i].email.None? || players[i].email != players[j].email)
  }

  /** `get_player_by_uid`. */
  function AccountIndex(players: seq<Account>, uid: Id): (r: Option<nat>)
    ensures r.Some? <==> exists i :: 0 <= i < |players| && players[i].uid == uid
    ensures r.Some? ==> r.value < |players| && players[r.value].uid == uid
  {
    if players == [] then None
    else if players[0].uid == uid then Some(0)
    else match AccountIndex(players[1..], uid)
      case None => None
      case Some(i) => Some(i + 1)
  }

  /** The uid lookup as written sends its query through a session method
      name that does not exist, so every lookup raises before the table is
      read, whether or not the uid is registered. */
  function AccountIndexAsWritten(players: seq<Account>, uid: Id): (r: Result<Option<nat>, LookupFailure>)
    ensures r.Err?
  {
    Err(UnknownSessionMethod)
  }

  datatype LookupFailure = UnknownSessionMethod

  /** A registered uid: the written lookup fails, the intended one finds
      the account. */
  lemma LookupCounterexample()
    ensures AccountIndexAsWritten([Account(7, "ana", "", None, SteamAuth, None)], 7).Err?
    ensures AccountIndex([Account(7, "ana", "", None, SteamAuth, None)], 7) == Some(0)
  {
  }

  /** The account after an update: the name is written and every other
      field, the uid and the hash among them, keeps its value. */
  function Updated(a: Account, u: PlayerUpdate): (b: Account)
    ensures b.name == u.name
    ensures b.(name := a.name) == a
  {
    a.(name := u.name)
  }

  /** Writing the name an account already has changes nothing. */
  lemma SameNameKeeps(a: Account)
    ensures Updated(a, PlayerUpdate(a.name)) == a
  {
  }

  /** Applying the same update twice is applying it once. */
  lemma UpdateIdempotent(a: Account, u: PlayerUpdate)
    ensures Updated(Updated(a, u), u) == Updated(a, u)
  {
  }

  /** Of two updates in a row only the later one is visible. */
  lemma LaterUpdateWins(a: Account, u: PlayerUpdate, v: PlayerUpdate)
    ensures Updated(Updated(a, u), v) == Updated(a, v)
  {
  }

  /** The players table. */
  class AccountTable {
    var players: seq<Account>

    constructor ()
      ensures players == []
    {
      players := [];
    }

    /** `create_player`: an email already registered is refused; otherwise
        an email account is added whose hash field holds the password's
        hash. `uid` is the fresh key. */
    method CreatePlayer(uid: Id, data: EmailSignup, hash: string -> string) returns (r: Result<Account, AccountError>)
      requires forall i :: 0 <= i < |players| ==> players[i].uid != uid
      modifies this
      ensures (exists i :: 0 <= i < |old(players)| && old(players)[i].email == Some(data.email)) ==>
        r == Err(EmailTaken) && players == old(players)
      ensures (forall i :: 0 <= i < |old(players)| ==> old(players)[i].email != Some(data.email)) ==>
        && r == Ok(Account(uid, data.name, data.steamId, Some(data.email), EmailAuth, Some(hash(data.password))))
        && players == old(players) + [r.value]
      ensures UniqueAccounts(old(players)) ==> UniqueAccounts(players)
    {
      if exists i :: 0 <= i < |players| && players[i].email == Some(data.email) {
        return Err(EmailTaken);
      }
      var account := Account(uid, data.name, data.steamId, Some(data.email), EmailAuth, Some(hash(data.password)));
      players := players + [account];
      return Ok(account);
    }

    /** `update_player`: an unknown uid changes nothing and yields nothing;
        otherwise the account's name is written and the updated account is
        returned. */
    method UpdatePlayer(uid: Id, u: PlayerUpdate) returns (r: Option<Account>)
      modifies this
      ensures AccountIndex(old(players), uid).None? ==> r.None? && players == old(players)
      ensures AccountIndex(old(players), uid).Some? ==>
        && r == Some(Updated(old(players)[AccountIndex(old(players), uid).value], u))
        && players == old(players)[AccountIndex(old(players), uid).value := r.value]
      ensures UniqueAccounts(old(players)) ==> UniqueAccounts(players)
    {
      var i := AccountIndex(players, uid);
      if i.None? {
        return None;
      }
      var a := players[i.value].(name := u.name);
      players := players[i.value := a];
      return Some(a);
    }
  }
}
