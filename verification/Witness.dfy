/** One account, one family, one token: what the concrete runs are about. */
module Witness {
  import opened Prelude
  import opened GrantTables
  import opened GrantSteps

  function TheGrant(c: ClientId): Grant {
    Grant(0, c, 0, [])
  }

  function FirstRow(cfg: Config, c: ClientId): Token {
    FirstToken(cfg, 0, TheGrant(c), 0, 0)
  }

  function RedeemedRow(cfg: Config, c: ClientId): Token {
    FirstRow(cfg, c).(usedAt := Some(0), revokedAt := Some(0))
  }

  function ChildRow(cfg: Config, c: ClientId, issuedAt: Time): Token {
    ChildOf(cfg, FirstRow(cfg, c), 0, 1, issuedAt)
  }

  function Shown(c: ClientId, hash: TokenHash): Presentation {
    Presentation(hash, true, c, 0, [], true, true)
  }

  function Tables(t: Tokens, user: User): Db {
    Db(t, map[], map[0 := user], map[0 := 0], map[])
  }
}
