# Functions playground page, modelled in Dafny

This project models the "Functions" page of a Swift introduction. The page is a
playground: a script that declares a few small functions and calls each of them
once or twice. The model keeps what those functions compute.

- `minMax`: one left-to-right scan over a non-empty array of `Double`. It keeps a
  running minimum and maximum and returns them as a pair. It reads `items[0]`
  without a check, so calling it on an empty array traps.
- `join`, `join2`, `join3`, `join4`: each returns the first string, then the
  joiner, then the second string. The four differ only in argument labels;
  `join` alone gives the joiner a default of `","`.
- `swap` (on `Int`) and `swap2` (generic): exchange two `inout` arguments
  through a temporary.
- `sqr`: the square of a `Double`.

All of it is one Dafny module, `Functions`, in `functions.dfy`. The modelling
choices:

- `Double` is modelled as `real`. `minMax` only compares values, and a total
  order is what its scan relies on.
- `minMax` is a method with a `for` loop. It keeps `minMax`'s
  `if … else if` shape. Its loop invariant says the running minimum and maximum
  are elements of the prefix already scanned and bound every element of it.
  The same invariant gives `min <= max`, which is why the `else if` can skip
  the maximum test when a new minimum is found. The method is proved against
  the fold functions `MinOf` and `MaxOf`. Lemmas prove that these folds return
  an element that bounds the array, and that such an element is unique.
- Swift argument labels are modelled as Dafny `nameonly` parameters. The
  default joiner is a default parameter value. `join4`'s unlabelled strings are
  ordinary positional parameters.
- An `inout` argument is copied in and written back when the call returns. So
  `swap` and `swap2` take the two values and return them exchanged. Swift
  refuses the same variable for both arguments, so aliasing does not arise.
- The page's own calls are modelled as client methods: `MinMaxCalls`,
  `JoinCalls` and `SwapCalls`. Their postconditions state the values the page
  computes.
- Line 81 declares `swap` with the argument label `a:`. Line 90 calls
  `swap(&c, &d)` without that label, so Swift resolves the call to its standard
  library's `swap(_:_:)`. That function makes the same exchange, so the model's
  `SwapCalls` uses `Swap` there.

## Model

| member | source | states |
|---|---|---|
| `Functions.Sqr` | Pages/Functions.xcplaygroundpage/Contents.swift:22-24 | the square of a number is never negative |
| `Functions.MinOfIsMinimum` | Pages/Functions.xcplaygroundpage/Contents.swift:29-36 | the left-to-right running minimum is an element of the array and is no greater than any element |
| `Functions.MaxOfIsMaximum` | Pages/Functions.xcplaygroundpage/Contents.swift:30-36 | the left-to-right running maximum is an element of the array and is no smaller than any element |
| `Functions.ExtremesAreUnique` | Pages/Functions.xcplaygroundpage/Contents.swift:28-40 | any element that bounds the array from below is its minimum and any that bounds it from above is its maximum, so the returned pair is determined; the first never exceeds the second |
| `Functions.MinMax` | Pages/Functions.xcplaygroundpage/Contents.swift:28-40 | on a non-empty array, returns an element that bounds every element from below and an element that bounds every element from above, with min <= max; these are exactly the array's minimum and maximum |
| `Functions.MinMaxCalls` | Pages/Functions.xcplaygroundpage/Contents.swift:43-48 | minMax of [3.5, -4.0, 3, 1] is (-4.0, 3.5) |
| `Functions.MinMaxOfSingleton` | Pages/Functions.xcplaygroundpage/Contents.swift:28-40 | minMax of a one-element array [x], where the loop never runs, returns (x, x) |
| `Functions.Join` | Pages/Functions.xcplaygroundpage/Contents.swift:52-54 | the result is the first string, then the joiner, then the second string, and its length in Unicode scalars is the sum of the three lengths |
| `Functions.Join2` | Pages/Functions.xcplaygroundpage/Contents.swift:62-64 | join2 returns the same string as join for the same arguments |
| `Functions.Join3` | Pages/Functions.xcplaygroundpage/Contents.swift:68-70 | join3 returns the same string as join, with its first and second strings passed as firstString and secondString |
| `Functions.Join4` | Pages/Functions.xcplaygroundpage/Contents.swift:74-76 | join4 returns the same string as join, with the two strings passed by position |
| `Functions.JoinSplits` | Pages/Functions.xcplaygroundpage/Contents.swift:52-54 | with a fixed joiner, a joined string determines both strings once the first one's length in Unicode scalars is known (compared scalar by scalar) |
| `Functions.JoinCalls` | Pages/Functions.xcplaygroundpage/Contents.swift:57-77 | joining "hello" and "world" gives "hello world" with joiner " " and "hello,world" with the default joiner; join2, join3 and join4 with "," give the same |
| `Functions.Swap` | Pages/Functions.xcplaygroundpage/Contents.swift:81-85 | after the call the first variable holds the old second value and the second holds the old first |
| `Functions.Swap2` | Pages/Functions.xcplaygroundpage/Contents.swift:95-99 | the same exchange for values of any type |
| `Functions.SwapTwice` | Pages/Functions.xcplaygroundpage/Contents.swift:95-104 | exchanging twice restores the original pair |
| `Functions.SwapCalls` | Pages/Functions.xcplaygroundpage/Contents.swift:88-106 | c, d go 5, 6 -> 6, 5 (the values printed at line 91) -> 5, 6 and e, f go 3.5, 4.5 -> 4.5, 3.5 |

## Left out

- `greet()` and `greet(person:)`: they only print and compute nothing.
- Every `print` call and the playground's navigation markup: output only.
- `Functions.Sqr`: does not model `Double` rounding, overflow to infinity or underflow to zero; it is stated over `real`.
- `Functions.MinMax`: does not model NaN or signed zero. Elements are reals, which are totally ordered.
- The empty array passed to `minMax`: `minMax` traps on it reading `items[0]`, and the model excludes it with a precondition.
- `Functions.Join`, `Functions.JoinSplits`: strings are sequences of Unicode scalars, so lengths and equality are counted and compared scalar by scalar. Swift's `String.count` counts grapheme clusters and its `==` compares by canonical equivalence; neither is modelled. Under Swift's own `count` and `==` the length sum and the split property can fail when a combining mark joins across a boundary.
