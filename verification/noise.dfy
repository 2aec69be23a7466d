/**
 * The filler that pads a query: a repeated noise token when no service client
 * is configured, otherwise the service's tokens forced to the requested length.
 */
module Noise {
  import opened Wrappers
  import opened Config

  /** Whether the agent was given a text-generation client. */
  datatype Backend = NoClient | ServiceClient

  /** What one service request returns: its whitespace-split tokens, or an error. */
  datatype Reply = Reply(tokens: seq<string>) | ServiceError

  /** `n` copies of one token. */
  function Repeat(tok: string, n: nat): (r: seq<string>)
    ensures |r| == n
    ensures forall k :: 0 <= k < n ==> r[k] == tok
  {
    if n == 0 then [] else [tok] + Repeat(tok, n - 1)
  }

  /** A repeated token contributes `n` occurrences of itself and nothing else. */
  lemma {:induction false} RepeatMultiset(tok: string, n: nat, x: string)
    ensures multiset(Repeat(tok, n))[x] == if x == tok then n else 0
  {
    if n > 0 {
      RepeatMultiset(tok, n - 1, x);
      assert Repeat(tok, n) == [tok] + Repeat(tok, n - 1);
    }
  }

  /**
   * Pads the service's tokens with `pad` up to `length`, then keeps the first
   * `length`: position k holds the k-th service token when there is one, else `pad`.
   */
  function Normalise(tokens: seq<string>, length: nat, pad: string): (r: seq<string>)
    ensures |r| == length
    ensures forall k :: 0 <= k < length ==> r[k] == if k < |tokens| then tokens[k] else pad
  {
    var padded := if |tokens| < length then tokens + Repeat(pad, length - |tokens|) else tokens;
    padded[..length]
  }

  /** With at least `length` tokens, normalising is truncation to a prefix. */
  lemma NormaliseTruncates(tokens: seq<string>, length: nat, pad: string)
    requires |tokens| >= length
    ensures Normalise(tokens, length, pad) == tokens[..length]
    ensures Normalise(tokens, length, pad) <= tokens
  {
  }

  /** With fewer than `length` tokens, normalising keeps them all and pads after them. */
  lemma NormalisePads(tokens: seq<string>, length: nat, pad: string)
    requires |tokens| < length
    ensures Normalise(tokens, length, pad) == tokens + Repeat(pad, length - |tokens|)
  {
  }

  /** Normalising an already normalised sequence changes nothing. */
  lemma NormaliseIdempotent(tokens: seq<string>, length: nat, pad: string)
    ensures Normalise(Normalise(tokens, length, pad), length, pad) == Normalise(tokens, length, pad)
  {
  }

  /** Whether a filler request of this length reaches the service at all. */
  predicate Consults(backend: Backend, length: int) {
    backend.ServiceClient? && length > 0
  }

  /**
   * The filler for one noise span. `reply` is what the service would answer
   * if it were asked; it is only looked at when the request reaches the service.
   */
  function GenerateNoise(cfg: QueryConfig, backend: Backend, length: int, reply: Reply): (r: Result<seq<string>>)
    ensures r.Failure? <==> Consults(backend, length) && reply.ServiceError?
    ensures r.Failure? ==> r.error == ServiceFailure
    ensures r.Success? ==> |r.value| == if length <= 0 then 0 else length
    ensures length <= 0 ==> r == Success([])
    ensures backend.NoClient? && length > 0 ==> r == Success(Repeat(cfg.noiseToken, length))
    ensures Consults(backend, length) && reply.Reply? ==>
              r == Success(Normalise(reply.tokens, length, cfg.noiseToken))
  {
    if length <= 0 then
      Success([])
    else if backend.NoClient? then
      Success(Repeat(cfg.noiseToken, length))
    else
      match reply
      case ServiceError => Failure(ServiceFailure)
      case Reply(tokens) => Success(Normalise(tokens, length, cfg.noiseToken))
  }

  /** A request that does not reach the service does not depend on its reply. */
  lemma NoiseIgnoresUnaskedService(cfg: QueryConfig, backend: Backend, length: int, a: Reply, b: Reply)
    requires !Consults(backend, length)
    ensures GenerateNoise(cfg, backend, length, a) == GenerateNoise(cfg, backend, length, b)
    ensures GenerateNoise(cfg, backend, length, a).Success?
  {
  }

  /** Every token of a successful filler is either a service token or the noise token. */
  lemma NoiseTokensComeFromReplyOrPad(cfg: QueryConfig, backend: Backend, length: int, reply: Reply)
    requires GenerateNoise(cfg, backend, length, reply).Success?
    ensures forall k :: 0 <= k < |GenerateNoise(cfg, backend, length, reply).value| ==>
              var tok := GenerateNoise(cfg, backend, length, reply).value[k];
              tok == cfg.noiseToken || (reply.Reply? && tok in reply.tokens)
  {
  }
}
