/** Provider token minting, apns2/auth.go: double-checked locking around one stored token. */
module Signer {
  import opened Options

  datatype Token = Token(issued: int, expires: int)

  /** TokenLifeSpan as configured, and the package default. */
  datatype Config = Config(lifeSpan: int, defaultLifeSpan: int)

  /** The stored token, and the life span fixed by the first minting. */
  datatype Vault = Vault(current: Option<Token>, lifeSpan: int)

  predicate Fresh(v: Vault, now: int) {
    v.current.Some? && v.current.value.expires > now
  }

  function LifeSpan(cfg: Config): int {
    if cfg.lifeSpan > 0 then cfg.lifeSpan else cfg.defaultLifeSpan
  }

  /** The critical section of GetToken for a caller that captured `now`. */
  function Minted(cfg: Config, v: Vault, now: int, signs: bool): Vault {
    if Fresh(v, now) then v
    else
      var span := if v.lifeSpan == 0 then LifeSpan(cfg) else v.lifeSpan;
      Vault(if signs then Some(Token(now, now + span)) else v.current, span)
  }

  class JWTSigner {
    const cfg: Config
    var currentToken: Option<Token>
    var tokenLifeSpan: int

    function View(): Vault
      reads this
    {
      Vault(currentToken, tokenLifeSpan)
    }

    /** Fixed by the first minting: the configured life span if it is positive, else the default. */
    function SpanFor(fixed: int): (span: int)
      ensures fixed != 0 ==> span == fixed
      ensures fixed == 0 && cfg.lifeSpan > 0 ==> span == cfg.lifeSpan
      ensures fixed == 0 && cfg.lifeSpan <= 0 ==> span == cfg.defaultLifeSpan
    {
      if fixed == 0 then LifeSpan(cfg) else fixed
    }

    constructor (cfg: Config)
      ensures this.cfg == cfg && View() == Vault(None, 0)
    {
      this.cfg := cfg;
      currentToken, tokenLifeSpan := None, 0;
    }

    /** GetToken with nobody in between; signs says whether signing succeeds. */
    method GetToken(now: int, signs: bool) returns (r: Option<Token>)
      modifies this
      ensures View() == Minted(cfg, old(View()), now, signs)
      ensures r == if Fresh(View(), now) || signs then View().current else None
      ensures var was := old(currentToken);
              if was.Some? && was.value.expires > now then r == was && View() == old(View())
              else if signs then
                && r == currentToken == Some(Token(now, now + tokenLifeSpan))
                && tokenLifeSpan == SpanFor(old(tokenLifeSpan))
              else r == None && currentToken == was && tokenLifeSpan == SpanFor(old(tokenLifeSpan))
    {
      var res := currentToken;
      if res.Some? && res.value.expires > now {
        return res;
      }
      r := Locked(now, signs);
    }

    /** What GetToken does under the lock. */
    method Locked(now: int, signs: bool) returns (r: Option<Token>)
      modifies this
      ensures View() == Minted(cfg, old(View()), now, signs)
      ensures r == if Fresh(old(View()), now) || signs then View().current else None
      ensures var was := old(currentToken);
              if was.Some? && was.value.expires > now then r == was && View() == old(View())
              else if signs then
                && r == currentToken == Some(Token(now, now + tokenLifeSpan))
                && tokenLifeSpan == SpanFor(old(tokenLifeSpan))
              else r == None && currentToken == was && tokenLifeSpan == SpanFor(old(tokenLifeSpan))
    {
      var res := currentToken;
      if res.Some? && res.value.expires > now {
        return res;
      }
      if tokenLifeSpan == 0 {
        if cfg.lifeSpan > 0 {
          tokenLifeSpan := cfg.lifeSpan;
        } else {
          tokenLifeSpan := cfg.defaultLifeSpan;
        }
      }
      if !signs {
        return None;
      }
      var tkn := Token(now, now + tokenLifeSpan);
      currentToken := Some(tkn);
      r := Some(tkn);
    }
  }

  // ---- Concurrent callers -----------------------------------------------------------

  /** Missed: the unlocked check failed and the lock is still to be taken. */
  datatype Caller = Started(now: int) | Missed(now: int) | Returned(now: int, token: Option<Token>)

  /** minted lists every token ever stored. */
  datatype Sys = Sys(v: Vault, clock: int, callers: seq<Caller>, minted: seq<Token>)

  datatype Step = Call(at: int) | FastPath(t: nat) | Lock(t: nat, signs: bool)

  predicate Enabled(s: Sys, e: Step) {
    match e
    case Call(at) => at >= s.clock
    case FastPath(t) => t < |s.callers| && s.callers[t].Started?
    case Lock(t, _) => t < |s.callers| && s.callers[t].Missed?
  }

  function Next(cfg: Config, s: Sys, e: Step): Sys
    requires Enabled(s, e)
  {
    match e
    case Call(at) => s.(clock := at, callers := s.callers + [Started(at)])
    case FastPath(t) =>
      var now := s.callers[t].now;
      s.(callers := s.callers[t := if Fresh(s.v, now) then Returned(now, s.v.current) else Missed(now)])
    case Lock(t, signs) =>
      var now := s.callers[t].now;
      var v := Minted(cfg, s.v, now, signs);
      var stores := !Fresh(s.v, now) && signs;
      s.(v := v,
         callers := s.callers[t := Returned(now, if Fresh(s.v, now) || signs then v.current else None)],
         minted := if stores then s.minted + [v.current.value] else s.minted)
  }

  /** What a caller is given is a minted token that was valid when it called. */
  predicate CallerOk(s: Sys, c: Caller) {
    c.now <= s.clock &&
    (c.Returned? && c.token.Some? ==> c.token.value in s.minted && c.token.value.expires > c.now)
  }

  /** Each token was issued no earlier than its predecessor expired. */
  predicate Successive(ts: seq<Token>) {
    forall i :: 0 <= i < |ts| - 1 ==> ts[i + 1].issued >= ts[i].expires
  }

  predicate Inv(cfg: Config, s: Sys) {
    && (s.v.lifeSpan == 0 || s.v.lifeSpan == LifeSpan(cfg))
    && (s.minted == [] <==> s.v.current.None?)
    && (s.minted != [] ==> s.v.current == Some(s.minted[|s.minted| - 1]))
    && Successive(s.minted)
    && (forall i :: 0 <= i < |s.minted| ==>
          s.minted[i].expires == s.minted[i].issued + LifeSpan(cfg) && s.minted[i].issued <= s.clock)
    && (forall t :: 0 <= t < |s.callers| ==> CallerOk(s, s.callers[t]))
  }

  lemma Keeps(cfg: Config, s: Sys, e: Step)
    requires LifeSpan(cfg) > 0 && Inv(cfg, s) && Enabled(s, e)
    ensures Inv(cfg, Next(cfg, s, e))
  {
    var s' := Next(cfg, s, e);
    if e.Lock? {
      assert CallerOk(s, s.callers[e.t]);
    } else if e.FastPath? {
      assert CallerOk(s, s.callers[e.t]);
    }
    forall t | 0 <= t < |s'.callers| ensures CallerOk(s', s'.callers[t]) {
      if t < |s.callers| {
        assert CallerOk(s, s.callers[t]);
      }
    }
  }

  predicate ValidRun(cfg: Config, s: Sys, es: seq<Step>)
    decreases |es|
  {
    es != [] ==> Enabled(s, es[0]) && ValidRun(cfg, Next(cfg, s, es[0]), es[1..])
  }

  function Final(cfg: Config, s: Sys, es: seq<Step>): Sys
    requires ValidRun(cfg, s, es)
    decreases |es|
  {
    if es == [] then s else Final(cfg, Next(cfg, s, es[0]), es[1..])
  }

  function Initial(clock: int): Sys {
    Sys(Vault(None, 0), clock, [], [])
  }

  lemma {:induction false} RunKeeps(cfg: Config, s: Sys, es: seq<Step>)
    requires LifeSpan(cfg) > 0 && Inv(cfg, s) && ValidRun(cfg, s, es)
    ensures Inv(cfg, Final(cfg, s, es))
    decreases |es|
  {
    if es != [] {
      Keeps(cfg, s, es[0]);
      RunKeeps(cfg, Next(cfg, s, es[0]), es[1..]);
    }
  }

  /** Token j expires after token i, and was issued j - i life spans after it or later. */
  predicate Apart(ts: seq<Token>, span: int, i: nat, j: nat)
    requires i < j < |ts|
  {
    ts[i].expires < ts[j].expires && ts[j].issued - ts[i].issued >= (j - i) * span
  }

  lemma {:induction false} Spread(ts: seq<Token>, span: int, i: nat, j: nat)
    requires span > 0 && Successive(ts) && i < j < |ts|
    requires forall k :: 0 <= k < |ts| ==> ts[k].expires == ts[k].issued + span
    ensures Apart(ts, span, i, j)
    decreases j - i
  {
    assert ts[j - 1 + 1].issued >= ts[j - 1].expires;
    if i < j - 1 {
      Spread(ts, span, i, j - 1);
      assert (j - i) * span == (j - 1 - i) * span + span;
    } else {
      assert (j - i) * span == span;
    }
  }

  lemma {:induction false} InvAtEnd(cfg: Config, clock: int, es: seq<Step>)
    requires LifeSpan(cfg) > 0 && ValidRun(cfg, Initial(clock), es)
    ensures Inv(cfg, Final(cfg, Initial(clock), es))
  {
    RunKeeps(cfg, Initial(clock), es);
  }

  /** In every run of concurrent calls, whatever a caller is given expires after the clock
      reading it started from. */
  lemma ReturnedTokensValid(cfg: Config, clock: int, es: seq<Step>)
    requires LifeSpan(cfg) > 0 && ValidRun(cfg, Initial(clock), es)
    ensures var s := Final(cfg, Initial(clock), es);
            forall t :: 0 <= t < |s.callers| ==> CallerOk(s, s.callers[t])
  {
    InvAtEnd(cfg, clock, es);
  }

  /** The tokens stored one after the other never overlap: each is issued no earlier than
      the one before expired, so their expiry only increases and the number minted is
      limited by the time that passed. */
  lemma MintedTokensApart(cfg: Config, clock: int, es: seq<Step>, i: nat, j: nat)
    requires LifeSpan(cfg) > 0 && ValidRun(cfg, Initial(clock), es)
    requires i < j < |Final(cfg, Initial(clock), es).minted|
    ensures Successive(Final(cfg, Initial(clock), es).minted)
    ensures Apart(Final(cfg, Initial(clock), es).minted, LifeSpan(cfg), i, j)
  {
    InvAtEnd(cfg, clock, es);
    Spread(Final(cfg, Initial(clock), es).minted, LifeSpan(cfg), i, j);
  }

  /** A first minting uses the configured life span if that is positive, and the default otherwise. */
  lemma MintsConfiguredSpan(cfg: Config, v: Vault, now: int)
    requires v.lifeSpan == 0 && !Fresh(v, now)
    ensures cfg.lifeSpan > 0 ==> Minted(cfg, v, now, true).current == Some(Token(now, now + cfg.lifeSpan))
    ensures cfg.lifeSpan <= 0 ==> Minted(cfg, v, now, true).current == Some(Token(now, now + cfg.defaultLifeSpan))
  {}

  /** In every run all tokens live as long as configured, or as long as the default if no positive
      life span is configured. */
  lemma MintedLiveAsConfigured(cfg: Config, clock: int, es: seq<Step>, i: nat)
    requires LifeSpan(cfg) > 0 && ValidRun(cfg, Initial(clock), es)
    requires i < |Final(cfg, Initial(clock), es).minted|
    ensures var tkn := Final(cfg, Initial(clock), es).minted[i];
            && (cfg.lifeSpan > 0 ==> tkn.expires - tkn.issued == cfg.lifeSpan)
            && (cfg.lifeSpan <= 0 ==> tkn.expires - tkn.issued == cfg.defaultLifeSpan)
  {
    InvAtEnd(cfg, clock, es);
  }

  /** A caller that takes the lock gets the stored token if that is valid, and otherwise one minted
      for its own time, unless signing fails; nobody mints while a valid token is stored. */
  lemma LockReturns(cfg: Config, s: Sys, t: nat, signs: bool)
    requires LifeSpan(cfg) > 0 && Inv(cfg, s) && Enabled(s, Lock(t, signs))
    ensures var s' := Next(cfg, s, Lock(t, signs));
            var now, token := s.callers[t].now, s'.callers[t].token;
            && s'.callers[t].Returned?
            && (s.v.current.Some? && s.v.current.value.expires > now ==> token == s.v.current && s'.minted == s.minted)
            && (s.v.current.None? || s.v.current.value.expires <= now ==>
                  && (token.Some? <==> signs)
                  && (signs ==>
                        token == s'.v.current && token.value.issued == now && s'.minted == s.minted + [token.value])
                  && (!signs ==> s'.minted == s.minted && s'.v.current == s.v.current))
  {}

  /** A life span that is not positive breaks the promise: the token a caller mints for
      itself has already expired, and exactly then. */
  lemma FreshMintValidIff(cfg: Config, v: Vault, now: int)
    requires v.lifeSpan == 0 && !Fresh(v, now)
    ensures Minted(cfg, v, now, true).current.value.expires > now <==> LifeSpan(cfg) > 0
  {}
}
