# dov-bear: the random image draw, verified

dov-bear is a small web server. Its page shows a random subset of 14 GIF
images and counts, per image, how often the image was drawn. This project
models the parts of `dov-bear/src/javascript/main.js` that carry logic:

- `rnd(range, total)`, the draw: push `0 .. range-1` into an array, swap
  each position `i` with a random position in `[0, range)`, and return
  `splice(0, total)`. `Sampler.Rnd` keeps this shape: an array, two
  `while` loops and the final cut. Its specification is the function
  `Sampler.Sample`.
- The page handler: the sample size `parseInt(num) || 4`, the call
  `rnd(14, total)`, and one `add(1)` on `imageCounters[v]` for each drawn
  id `v` (module `Handler`).
- The start-up settings, each a `||` chain of option, alias, environment
  variable and default (modules `JsValues` and `Config`).

Randomness is an input. `picks[i]` is the index that
`Math.floor(Math.random() * range)` gave in swap iteration `i`.
`Sampler.ValidPicks` states what such a draw can be: one index per
iteration, each in `[0, range)`. `parseInt` is an input too: its result is
an `Option<int>`, where `None` stands for NaN.

Files: `wrappers.dfy` (Option), `sampler.dfy` (rnd), `js_values.dfy`
(truthiness and `||`), `config.dfy` (settings), `handler.dfy` (page
handler and image counters).

Behaviour of main.js worth knowing:

- The swap loop (main.js:15-20) picks its partner from all of `[0, range)`,
  not from `[i, range)` as Fisher–Yates does, so no distribution property
  is claimed.
- `parseInt("-3")` is -3, which is truthy, so `rnd(14, -3)` runs and
  `splice` returns `[]` (`Handler.PageSize`).
- `num=0` parses to the falsy 0 and falls back to 4, just as an absent or
  non-numeric `num` does.

## Model

| member | source | states |
|---|---|---|
| Sampler.PoolSize | dov-bear/src/javascript/main.js:12-15 | the loops `for (i = 0; i < range; i++)` run `range` times, and not at all when range <= 0 |
| Sampler.ValidPicks | dov-bear/src/javascript/main.js:15-16 | the draws `Math.floor(Math.random() * range)` of the swap loop: exactly one per iteration, each an index in [0, range) |
| Sampler.FloorDrawInPool | dov-bear/src/javascript/main.js:16 | for r in [0, 1) and range > 0, `Math.floor(r * range)` lies in [0, range), so every draw meets ValidPicks |
| Sampler.FloorDrawReaches | dov-bear/src/javascript/main.js:16 | every index d in [0, range) is `Math.floor(r * range)` for r = d / range in [0, 1), so ValidPicks allows no index the draw cannot produce |
| Sampler.Iota | dov-bear/src/javascript/main.js:10-13 | the push loop yields a sequence of length n whose element k is k |
| Sampler.Swap | dov-bear/src/javascript/main.js:17-19 | one swap through `t` exchanges positions i and idx (also when they are equal), keeps the length and leaves every other position alone |
| Sampler.Shuffled | dov-bear/src/javascript/main.js:15-20 | the array after the first k swap iterations; it keeps the length of the array |
| Sampler.SwapPermutes | dov-bear/src/javascript/main.js:17-19 | a swap keeps the multiset of the array |
| Sampler.ShuffledPermutes | dov-bear/src/javascript/main.js:15-20 | after any number of swap iterations the array is a permutation (same multiset) of what it started as |
| Sampler.SpliceCount | dov-bear/src/javascript/main.js:22 | `splice(0, total)` removes nothing for total <= 0, exactly total elements when 0 <= total <= length, and the whole array when total >= length |
| Sampler.Sample | dov-bear/src/javascript/main.js:9-23 | the value `rnd(range, total)` returns for given picks: a prefix of the fully shuffled array, of length `SpliceCount(total, PoolSize(range))` |
| Sampler.PermutationOfIota | dov-bear/src/javascript/main.js:12-20 | any rearrangement of 0..n-1 has length n, no repeats, only ids in [0, n), and holds every id in [0, n) |
| Sampler.SampleProperties | dov-bear/src/javascript/main.js:12-22 | the result of `rnd` has length `SpliceCount(total, PoolSize(range))`, i.e. min(max(total, 0), max(range, 0)); its ids are pairwise distinct and in [0, range); it is exactly the front of the shuffled array |
| Sampler.SampleFullPool | dov-bear/src/javascript/main.js:22 | for total >= range the whole shuffled pool comes back, not an error: every id of [0, range) once |
| Sampler.SampleEmpty | dov-bear/src/javascript/main.js:22 | for total <= 0 no ids come back |
| Sampler.Rnd | dov-bear/src/javascript/main.js:9-23 | the array method with both loops returns `Sample(range, total, picks)`, of length `SpliceCount(total, PoolSize(range))`, i.e. min(max(total, 0), max(range, 0)), with distinct ids in [0, range) |
| JsValues.Truthy | dov-bear/src/javascript/main.js:43-51 | ECMAScript ToBoolean on the values of these chains: undefined, NaN, 0 and "" are falsy, everything else truthy |
| JsValues.Number | dov-bear/src/javascript/main.js:128 | the number `parseInt` yields: a number exactly when the parse succeeded, holding the parsed value, and truthy exactly when that value is nonzero (NaN is falsy) |
| JsValues.Or | dov-bear/src/javascript/main.js:43-51 | binary `a \|\| b` is `a` when `a` is truthy and `b` otherwise; it is truthy exactly when one operand is |
| JsValues.OrChain | dov-bear/src/javascript/main.js:43-51 | left-grouped `a \|\| b \|\| ...`; its value is always one of its operands |
| JsValues.OrChainIsFirstTruthy | dov-bear/src/javascript/main.js:43-51 | a left-grouped `a \|\| b \|\| ...` evaluates to the first truthy operand, or to the last operand when none is truthy |
| JsValues.FirstTruthyWins | dov-bear/src/javascript/main.js:43-51 | when operand k is truthy and every earlier one is falsy, the chain yields operand k |
| JsValues.AllFalsyYieldsLast | dov-bear/src/javascript/main.js:45 | when every operand before the last is falsy, the chain yields the last operand, falsy or not |
| Config.Opt | dov-bear/src/javascript/main.js:43-51 | `opt[key]` is the parsed option when the key is present and `undefined` otherwise, so an absent option always falls through |
| Config.EnvString | dov-bear/src/javascript/main.js:44-45 | `process.env[key]` is the variable's text or `undefined`; it is truthy exactly when the variable is set and nonempty |
| Config.EnvInt | dov-bear/src/javascript/main.js:43-51 | `parseInt(process.env[key])` is NaN for an unset variable (the text "undefined" has no digits) or a failed parse, else the parsed number; truthy exactly when set and parsing to nonzero |
| Config.Port | dov-bear/src/javascript/main.js:43 | the listen port chain `opt['port'] \|\| opt['p'] \|\| parseInt(PORT) \|\| 3000`; its value is always truthy |
| Config.InstanceName | dov-bear/src/javascript/main.js:44 | the name chain `opt['name'] \|\| opt['n'] \|\| INSTANCE_NAME \|\| 'dov-bear'`; its value is always truthy |
| Config.InstanceHash | dov-bear/src/javascript/main.js:45 | the hash chain `opt['hash'] \|\| INSTANCE_HASH \|\| ''`; its value is the option, the variable or the empty string |
| Config.MetricsPort | dov-bear/src/javascript/main.js:51 | the metrics port chain `opt['metricsPort'] \|\| opt['m'] \|\| parseInt(METRICS_PORT) \|\| 3100`; its value is always truthy |
| Config.PortPrecedence | dov-bear/src/javascript/main.js:43 | the port is the `port` option, else the `p` entry, else a nonzero parsed PORT, else 3000; it is always truthy |
| Config.EnvPortUsed | dov-bear/src/javascript/main.js:43 | with no truthy option, a PORT parsing to nonzero n gives port n |
| Config.MetricsPortPrecedence | dov-bear/src/javascript/main.js:51 | the metrics port is `metricsPort`, else `m`, else a nonzero parsed METRICS_PORT, else 3100; it is always truthy |
| Config.InstanceNamePrecedence | dov-bear/src/javascript/main.js:44 | the name is `name`, else `n`, else a nonempty INSTANCE_NAME, else "dov-bear"; it is always truthy |
| Config.InstanceHashPrecedence | dov-bear/src/javascript/main.js:45 | the hash is `hash`, else a nonempty INSTANCE_HASH, else the empty string |
| Handler.SampleCount | dov-bear/src/javascript/main.js:128 | the sample size is the parsed `num` when it is a nonzero integer and 4 when `num` is NaN (absent, non-numeric) or 0; it is never 0 |
| Handler.SampleCountIsOr | dov-bear/src/javascript/main.js:128 | SampleCount agrees with JavaScript's `parseInt(num) \|\| 4` on every parse outcome |
| Handler.ImageNumbers | dov-bear/src/javascript/main.js:58 | `[...Array(14).keys()]` is 0..13 by position |
| Handler.PageIds | dov-bear/src/javascript/main.js:128-129 | the ids one page draws, `rnd(14, parseInt(num) \|\| 4)`; there are `SpliceCount(SampleCount(parsed), 14)` of them |
| Handler.DrawnIdsIndexCounters | dov-bear/src/javascript/main.js:129-136 | every id v drawn by `rnd(14, total)` satisfies 0 <= v < 14 == number of image counters, and counter v was created for image v |
| Handler.PageSize | dov-bear/src/javascript/main.js:128-129 | a page shows distinct ids in [0, 14): `num` of them for 1 <= num <= 14, 4 for absent, NaN or 0, 14 for num > 14, none for num < 0 |
| Handler.ImageCounters.constructor | dov-bear/src/javascript/main.js:58-62 | there are 14 image counters, all starting at 0 |
| Handler.ImageCounters.AddDraws | dov-bear/src/javascript/main.js:136-138 | each counter k grows by the number of times k occurs in the drawn ids, and no other counter changes |
| Handler.HandleIndex | dov-bear/src/javascript/main.js:128-138 | the page draws `rnd(14, parseInt(num) \|\| 4)`, and each image counter grows by exactly 1 when its image was drawn and by 0 otherwise |

## Left out

- `Math.random` is replaced by the `picks` input, so no statement about uniformity or bias is made.
- `Math.random() * range` is modelled over the reals, not IEEE doubles (`Sampler.FloorDrawInPool`, `Sampler.FloorDrawReaches`). The witness d / range is in general not a value `Math.random` returns. For range 14, every double r in [0, 1) still gives a floor in [0, 14), and every index is reached by some double.
- `parseInt` on strings is an ECMAScript built-in. It is an input giving `Option<int>`. Its whitespace, sign, `0x` prefix and `Infinity` cases are not modelled.
- The JavaScript array `nums` grows by `push`. The model allocates it at its final length, because every push happens before any read. The part `splice` leaves behind is discarded, as it is in the source.
- The default parameters `range = 14, total = 4` of `rnd` are not modelled, because the only caller passes both arguments.
- The command-line parser and its error path (main.js:27-41) are an external library and process-level throwing. Its result `opt` is an input map, so the model does not capture that `opt['p']`, `opt['n']` and `opt['m']` are never filled in under those alias keys.
- `JsValue` has no `null` and only integer numbers. The command-line parser gives `null` for a bare `--port` or `--name`, and any double for `type: Number`. This changes no result here: `null` is falsy like `undefined`, and it is never the last operand of these chains. Booleans are not modelled because the only chain that can yield one, `promtailHost`, is left out.
- `promtailHost` and `promtailPort` (main.js:46-47) and the winston, express-winston and morgan setup (main.js:70-106) are logging configuration.
- Express routing, static files, the `/healthz` handler and Handlebars rendering (main.js:108-121, 131-132) are framework calls.
- The metric counters proper are foreign library calls: the meter, the exporter, the `./metrics` module, the request counter, the duration histogram and the labels passed to `add`. `Handler.ImageCounters` keeps only each image counter's running sum.
- The in-flight gauge and the `Date` timing (main.js:122-127, 130, 139-142) depend on the clock and the event loop.
- Server start-up and its failure path (main.js:145-156) are I/O.
