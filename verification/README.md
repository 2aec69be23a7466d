# Fact-embedding query generator, modelled in Dafny

This project models the query generator agent of `cl_gen/augment/agent.py`.
The agent builds one token sequence of fixed total length `T`:

- noise, then the subject tokens, then more noise, then the relation tokens, then more noise, then the linking word;
- the two split points (where the subject starts, and where the relation starts) are drawn at random;
- the noise is either a repeated noise token or tokens returned by a text-generation service, forced to the requested length.

Modules, one per component of the agent:

- `Wrappers`: the `Result`/`Option` types, and one `Error` constructor per exception the agent lets escape.
- `Config`: the query configuration, the validator on `T`, and the floor `|subject| + |relation| + 1`.
- `Noise`: `_generate_noise`, covering the empty path, the repeated-token path and the pad-then-truncate normalisation of service tokens.
- `Placement`: `random.randint` with its empty-range error, the two split-point draws and the three noise spans they determine.
- `QueryAgent`: `generate_query`, and `generate_queries` as a batch method.

How the non-deterministic inputs are modelled:

- A random draw is a natural-number parameter. `Randint(lo, hi, draw)` is `lo + draw % (hi - lo + 1)`, which reaches every value of the range. The lemmas therefore cover every legal pair of split points, not some distribution over them.
- The service's answer to each filler request is an arbitrary token sequence or an error. An `Oracle` bundles, for one call, the two draws and the three replies, in call order.
- A batch takes one oracle per call, as a function from the call index.

## Model

| member | source | states |
|---|---|---|
| Config.CheckLength | cl_gen/augment/agent.py:38-42 | the validator accepts exactly the positive lengths, returns them unchanged, and rejects the others with the non-positive-length error |
| Config.NewConfig | cl_gen/augment/agent.py:23-42 | a configuration is built exactly when T > 0, with every field as given; T is not compared with the token counts here |
| Config.NewDefaultConfig | cl_gen/augment/agent.py:26-36 | a configuration built from T, subject, relation and linking word alone exists exactly when T > 0; its noise token is "n", its mode neutral and its false target absent |
| Noise.Repeat | cl_gen/augment/agent.py:63-64 | the default filler has exactly `n` tokens, each of them the noise token |
| Noise.RepeatMultiset | cl_gen/augment/agent.py:63-64 | the default filler holds `n` copies of the noise token and no other token |
| Noise.Normalise | cl_gen/augment/agent.py:87-90 | normalised service output has exactly the requested length; position k holds the k-th service token if there is one, else the noise token |
| Noise.NormaliseTruncates | cl_gen/augment/agent.py:88-90 | with at least `length` service tokens, the result is their prefix of that length |
| Noise.NormalisePads | cl_gen/augment/agent.py:88-89 | with fewer service tokens, the result is all of them followed by noise-token padding |
| Noise.NormaliseIdempotent | cl_gen/augment/agent.py:87-90 | normalising twice gives the same result as normalising once |
| Noise.GenerateNoise | cl_gen/augment/agent.py:59-90 | a length <= 0 gives the empty filler; otherwise the filler has exactly `length` tokens; without a client it is the repeated noise token; with a client it is the normalised reply; it fails only when a request reaching the service fails |
| Noise.NoiseIgnoresUnaskedService | cl_gen/augment/agent.py:61-64 | a request with length <= 0, or made without a client, succeeds and does not depend on the service's reply, so no service call takes place |
| Noise.NoiseTokensComeFromReplyOrPad | cl_gen/augment/agent.py:83-90 | every filler token is the noise token or one of the service's tokens |
| Placement.Randint | cl_gen/augment/agent.py:104-105 | an inclusive draw fails exactly on an empty range, with the empty-range error; otherwise it lies within the bounds |
| Placement.RandintReaches | cl_gen/augment/agent.py:104-105 | every value of a non-empty range is the outcome of some draw |
| Placement.SecondRangeNonEmpty | cl_gen/augment/agent.py:103-105 | once the length guard passes, every legal first draw leaves a non-empty range for the second draw |
| Placement.LegalIffFits | cl_gen/augment/agent.py:103-109 | split points lie in the draw ranges exactly when all three noise spans are non-negative and, with the content, add up to T |
| Placement.SpansRoundTrip | cl_gen/augment/agent.py:107-109 | split points and noise spans determine each other |
| Placement.ChoosePlan | cl_gen/augment/agent.py:99-105 | the guard and the two draws fail exactly when T is below the floor (subject tokens + relation tokens + 1), always with the too-small error, never with an empty-range error; the drawn split points are legal |
| Placement.EveryLegalPlanIsChosen | cl_gen/augment/agent.py:103-105 | every legal pair of split points is drawn by some pair of draws |
| QueryAgent.GenerateQuery | cl_gen/augment/agent.py:92-119 | below the floor the query fails with the too-small error and produces nothing; at or above it, the query fails exactly when a request reaching the service fails; a produced query has exactly T tokens |
| QueryAgent.GenerateQueryPlacesContent | cl_gen/augment/agent.py:103-118 | a query above the floor whose service requests are all answered is produced; positions [0, i) hold the first filler, the subject sits at `i`, positions up to `j` hold the second filler, the relation sits at `j`, the next `n3` positions hold the third filler, and the linking word is last |
| QueryAgent.DefaultQueryPointwise | cl_gen/augment/agent.py:92-119 | without a client, a query above the floor always succeeds; every position outside the subject, the relation and the last position holds the noise token |
| QueryAgent.DefaultQueryContents | cl_gen/augment/agent.py:92-119 | without a client, the query holds the subject, the relation, the linking word and T minus the floor noise tokens, whatever the split points |
| QueryAgent.MinimumLengthQuery | cl_gen/augment/agent.py:99-119 | at T equal to the floor the query is exactly subject ++ relation ++ [link], with or without a client |
| QueryAgent.OneBelowFloorRejected | cl_gen/augment/agent.py:99-101 | at T one below the floor (subject tokens + relation tokens) no query is produced |
| QueryAgent.EveryLegalPlacementIsGenerated | cl_gen/augment/agent.py:103-119 | for every legal pair of split points, some draws choose it; when the service answers, they yield a query with the content placed there |
| QueryAgent.GenerateQueries | cl_gen/augment/agent.py:121-123 | a batch succeeds exactly when each of its `count` queries does; it then holds them in call order (none for a negative count); otherwise it fails with the error of the first failing query; without a client, a batch above the floor always succeeds |
| QueryAgent.ParisScenario | cl_gen/augment/agent.py:92-119 | for subject "Paris", relation "is in France", link "therefore", noise token "noise", T = 8, any mode and no service client: every draw gives 8 tokens ending in "therefore", "Paris" before "is in France", and exactly three "noise" tokens |

## Left out

- The service request (cl_gen/augment/agent.py:66-86): the model name, the three mode-specific prompts and the client call are network I/O and string templating. The reply is an arbitrary token sequence or an error. A reply without message content would raise inside the source; here it is folded into the same service error.
- The noise mode and the false target are kept in the configuration, but nothing in the model reads them. In the source they only shape the prompt.
- Whitespace tokenisation (`str.split`) of the subject, the relation and the service text. These are taken as already-split token sequences.
- The distribution of `random.randint`. Draws are arbitrary naturals, and the lemmas quantify over every legal outcome. Uniformity is not stated.
- The pydantic machinery: field aliases and type coercion. A rejected `T` is the `NonPositiveLength` error rather than a pydantic validation exception. The field defaults (noise token "n", neutral mode, no false target) are modelled by `NewDefaultConfig`.
- The default `count = 1` of `generate_queries`: `GenerateQueries` always takes the count explicitly.
- Which exception class is raised. Each cause is a constructor of `Error`; the source raises `ValueError` for the floor and for empty draw ranges.
- The floor `T >= |subject| + |relation| + 1` is checked when a query is generated, not when the configuration is built, as in the source code. A configuration below the floor is accepted; its every query fails.
- Subject and relation may be empty token sequences. The source does not forbid them, so the model does not either.
