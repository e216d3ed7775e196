# golfscript.js in Dafny

A model of `golfscript.js`, a small interpreter for a GolfScript-like stack
language. A program is a string. A cursor moves through it, and at each position
a fixed chain of matchers runs: a bound identifier, a `#` comment, an integer
literal, a `{…}` block, a `[…]` array, a `"…"` string, a `:name` assignment, the
`while` and `until` keywords, and finally a one-character operator. Each matcher
either leaves the cursor where it is or consumes its construct and changes the
stack, the symbol table or a value in place.

The model keeps the shape of the source:

- **Values are heap objects** (`Values.Value`, a class with a mutable `data`
  field holding a number, a string, a block's source text or an array of values).
  Binding a name stores the very object on top of the stack. Looking the name up
  pushes that same object. `inc`, `dec` and `$` overwrite `data` in place, so
  every alias sees the change. Only `dup` and `$` with a number make deep copies.
  A ghost footprint `Repr` and the predicates `Wf`/`Tree` state that values form
  finite acyclic graphs: no array contains itself, directly or through its
  elements, but one value may appear in several arrays or several times in one.
- **The stack** is a class (`Stacks.Stack`) whose sequence of items is replaced
  by `Push`, `Pop` and `SkipPop`. Each fails with `StackUnderflow` where the
  source throws.
- **The interpreter** (`Interpreter.Interp`) holds the symbol table as a map from
  names to values. It also has a ghost set of every value it has made, which
  frames every method. The stack is a parameter, as in the source, because array
  literals and block sorting run the dispatch loop on stacks of their own.
- **Outcomes**: a thrown error becomes `Err(fault)` of `Outcomes.Result`.
  Everything in the source that would loop forever becomes an error of its own:
  - a missing closing delimiter gives `Unterminated`;
  - a character no matcher accepts gives `Stuck`;
  - an exhausted `fuel` budget gives `OutOfFuel`.
- **Pure parts are functions**: the identifier scan, comment skipping, decimal
  text, escaping for `` ` ``, sorting, and the renderer `prettyPrint`. The
  scanning loops of the source stay loops, each proved against a definition of
  what it finds:
  - `Lookahead` is true exactly when the predicate `IsPrefixAt` holds;
  - `ScanDigits` returns the end of the maximal digit run, stated in its own
    postconditions;
  - `FindClose` is proved against the predicates `FirstClose` and `Unclosed`;
  - `FindQuote` is proved against `FirstQuote` and `Unquoted`;
  - `QuoteText` is proved equal to the function `Escaped` between quotes.

  The cursor loop of `Interpret` stays a loop too; its contract is stated per pass.

The main properties proved:

- Each matcher either leaves cursor and state unchanged or consumes exactly its
  construct:
  - the longest digit run is read as its decimal value;
  - a block ends at the first `}` that balances its `{`, and its text has
    balanced braces;
  - a string ends at the first `"` not preceded by a backslash.
- `minArgs` rejects a short stack before the operator runs.
- Stack effects of the operators are stated exactly, e.g. `swap` exchanges the
  top two and `swap2` rotates the third to the top. `doAction` carries each
  operator's effect to its callers through the predicate `Interpreter.Effect`.
- `dup` and `$` with a number push a copy every node of which is new, and no
  node of which sits at two positions of an array, so later in-place updates of
  the copy and the original never meet, nor do those of two elements of the copy.
- `$` sorts and permutes.
- Quoting re-reads:
  - a quoted natural number reads back as the same number;
  - a quoted balanced block reads back as the same block;
  - a quoted string is closed by its final quote.
- `Escaped`/`Unescape` round-trip.
- `prettyPrint` is the comma-separated list of the renderings, and a deep copy
  renders exactly like its original.

## Model

| member | source | states |
|---|---|---|
| Values.Value.constructor | golfscript.js:1-6 | a node holds exactly the given kind and payload |
| Interpreter.Interp.Make | golfscript.js:1-6 | a new value with that payload, whose footprint is itself plus its elements' footprints, added to the interpreter's values with the invariant kept |
| Stacks.Stack.Push | golfscript.js:25-27 | the value is appended on top and nothing else changes |
| Stacks.Stack.Pop | golfscript.js:15-18 | fails on an empty stack without changing it; otherwise returns exactly the last element and removes only it |
| Stacks.Stack.Peek | golfscript.js:20-23 | fails on an empty stack; otherwise returns the last element; the stack is never changed |
| Stacks.Stack.SkipPop | golfscript.js:29-34 | below two elements it fails; otherwise it returns the element under the top and removes only it, leaving the top in place |
| Text.NextIdentifier | golfscript.js:65-73 | the result is a prefix of the text at i: a single space, or the longest run of letters, digits and `_` starting with a letter or `_`; it is empty exactly when neither starts there |
| Text.Lookahead | golfscript.js:221-226 | true exactly when the word occurs at position i |
| Text.ScanDigits | golfscript.js:107-110 | the end of the maximal run of decimal digits starting at i |
| Text.CheckComment | golfscript.js:98-105 | without `#` the cursor stays; with `#` it moves past the next newline, or to the end when there is none, skipping no newline on the way |
| Text.FindClose | golfscript.js:118-124 | the scan returns the first closer that balances the opener, and fails exactly when none exists |
| Text.FindQuote | golfscript.js:132-138 | the scan returns the first quote not preceded by a backslash, and fails exactly when none exists |
| Text.DecimalText | golfscript.js:318 | `toString` of an integer: never empty, all digits exactly when the number is not negative, and starting with `-` exactly when it is negative, followed then by the digits whose value is the number's magnitude; no leading zero except in `0` itself |
| Text.NaturalTextRoundTrip | golfscript.js:318 | reading the decimal text of a natural number gives back the number |
| Text.LeadingZerosIgnored | golfscript.js:111 | `parseInt` of a digit run ignores a leading zero: `0` followed by s has the value of s |
| Text.QuotedNumberRereads | golfscript.js:107-113 | quoting a non-negative number gives a digit run that the number matcher reads back as the same number |
| Text.QuotedBlockRereads | golfscript.js:302-304 | quoting a block with balanced braces gives text whose first balancing `}` is its last character, so the block matcher reads back the same block |
| Text.Escaped | golfscript.js:306-315 | the escaped text never starts with `"`, every `"` in it follows a backslash, and it ends with a backslash exactly when the original does |
| Text.UnescapeEscaped | golfscript.js:306-315 | removing the backslash before each escaped quote restores the original text |
| Text.QuoteText | golfscript.js:305-316 | the quoting loop yields `"`, then the text with every `"` escaped, then `"` |
| Text.QuotedStringRereads | golfscript.js:305-316 | for a string not ending in a backslash, the string matcher closes the quoted text at its final quote |
| Sorting.SortByKey | golfscript.js:283-285 | the result is ordered by key and is a permutation of the input |
| Sorting.SortChars | golfscript.js:280 | `split("").sort().join("")`: a permutation of the characters in ascending order |
| Interpreter.NumericOrder | golfscript.js:283-285 | the array elements, all numbers, as a permutation in ascending numeric order |
| Rendering.Render | golfscript.js:367-379 | one value's text is never empty, and its first character tells the kind: `[` for an array, `{` for a block, `'` for a string, a digit or `-` for a number |
| Rendering.PrettyPrint | golfscript.js:363-382 | the rendered stack is empty exactly when the stack is empty |
| Rendering.PrettyPrintJoins | golfscript.js:363-382 | the rendered stack is the renderings of its values joined by commas, with no trailing comma |
| Rendering.CopyRendersAlike | golfscript.js:250 | a deep copy prints exactly like the value it copies |
| Interpreter.Interp.constructor | golfscript.js:358-359 | an interpreter starts with an empty symbol table |
| Interpreter.Interp.DeepCopy | golfscript.js:250 | `JSON.parse(JSON.stringify(v))` yields a value of the same shape and contents every node of which is new, and in which no two positions of an array share a node |
| Interpreter.Interp.Add | golfscript.js:233-235 | below two elements it underflows; two numbers are replaced by one new number, their sum |
| Interpreter.Interp.Sub | golfscript.js:237-239 | on `… a b` the two are replaced by one new number a−b |
| Interpreter.Interp.Mult | golfscript.js:241-243 | two numbers are replaced by one new number, their product |
| Interpreter.Interp.Div | golfscript.js:245-247 | on `… a b` with b dividing a, the two are replaced by the quotient q with q·b = a |
| Interpreter.Interp.Dup | golfscript.js:249-251 | a deep copy of the top, every node of it new and none shared between two positions of an array, is pushed and the rest is unchanged; an empty stack underflows |
| Interpreter.Interp.Swap | golfscript.js:253-255 | the top two change places and nothing else changes |
| Interpreter.Interp.Swap2 | golfscript.js:257-259 | the third from the top moves to the top; the height and the order of the rest are unchanged |
| Interpreter.Interp.Inc | golfscript.js:261-263 | the number on top grows by one in place and no other value changes |
| Interpreter.Interp.Dec | golfscript.js:265-267 | the number on top shrinks by one in place and no other value changes |
| Values.FalsyExactly | golfscript.js:271 | the payloads that `!` maps to 1 are exactly the number 0 and the empty string, block and array |
| Interpreter.Interp.Not | golfscript.js:269-272 | the top is replaced by 1 when it is 0 or has length 0, and by 0 otherwise |
| Interpreter.Interp.Quote | golfscript.js:299-322 | the top is replaced by one new string: `{text}` for a block, the escaped and quoted text for a string, the decimal text for a number; the height is unchanged |
| Interpreter.Interp.Tilde | golfscript.js:324-340 | an empty stack underflows; a number n is replaced by one new number −n−1; an array is replaced by its own elements in their order; for a number or an array the symbol table and the data of every existing value stay as they were |
| Interpreter.Interp.DollarNumber | golfscript.js:276-278 | n greater than the remaining height underflows; n negative or equal to it has no element to copy; otherwise a deep copy of the element n below the top, every node of it new and none shared between two positions of an array, is pushed |
| Interpreter.Interp.DollarString | golfscript.js:279-281 | the string's characters are sorted in place and the same object goes back on top |
| Interpreter.Interp.SortNumbers | golfscript.js:283-285 | an array of fewer than two elements is left as it is, whatever it holds, as `sort` never calls its comparator then; a longer array of numbers is reordered in place into an ascending permutation of itself |
| Interpreter.Interp.DollarArray | golfscript.js:282-286 | an array of fewer than two elements goes back on top unchanged; a longer one holding a non-number fails with the stack unchanged; otherwise the same array object goes back on top, its elements an ascending permutation of what they were |
| Interpreter.Interp.BlockKeys | golfscript.js:291-292 | on success, one pair per element, carrying that element in the array's order; the contract does not say which number each key is |
| Interpreter.Interp.SortByBlock | golfscript.js:290-294 | on success, the array is reordered in place into a permutation of its elements, sorted by keys that the contract does not tie to the block |
| Interpreter.Interp.DollarBlock | golfscript.js:287-295 | the array on top must exist and be an array; one of fewer than two elements is left as it is without running the block, as `sort` never calls its comparator then; a longer one is reordered in place into a permutation sorted by the keys the block computed; the block is not pushed back |
| Interpreter.Interp.DollarSign | golfscript.js:274-297 | pops the top and acts on its kind; an empty stack underflows |
| Interpreter.Interp.Loop | golfscript.js:342-356 | `whileFunc`/`untilFunc` pop body and condition, so below two elements they underflow |
| Interpreter.Interp.CheckPushIdentifier | golfscript.js:89-96 | a bound name pushes the very object it is bound to and moves the cursor past the name; otherwise nothing changes |
| Interpreter.Interp.CheckPushNumber | golfscript.js:107-113 | without a digit nothing changes; otherwise the cursor moves to the end of the maximal digit run and exactly one new number with its decimal value is pushed |
| Interpreter.Interp.CheckPushBlock | golfscript.js:115-127 | the cursor lands one past the `}` that first balances the `{`; the text strictly between them has balanced braces and is pushed as one new block |
| Interpreter.Interp.CheckPushArray | golfscript.js:143-155 | the cursor lands one past the first balancing `]`; one new array is pushed |
| Interpreter.Interp.CheckPushString | golfscript.js:129-141 | the cursor lands one past the first unescaped `"`; the raw text between the quotes is pushed as one new string |
| Interpreter.Interp.DoAssn | golfscript.js:75-87 | `:` followed by no identifier fails; otherwise the name is bound to the top, the stack is unchanged and the cursor moves past the name |
| Interpreter.Interp.DoKeyword | golfscript.js:157-164 | without the keyword at i nothing changes; with it, a stack of fewer than two values underflows before anything changes, and success moves the cursor past the keyword |
| Interpreter.Arity | golfscript.js:169-216 | the `min` passed to `minArgs`: 2 exactly for `+ - * / \`, 3 exactly for `@`, 1 for every other operator |
| Interpreter.Interp.ApplyArithmetic | golfscript.js:170-181 | `+ - * /` have the effect stated by `Effect`: one new number, the sum, difference, product or exact quotient, replaces the two operands; the symbol table is unchanged |
| Interpreter.Interp.ApplyShuffle | golfscript.js:182-210 | `\ @ ; . !` and a bound space have the effect stated by `Effect`: swap, rotate, drop, a deep copy whose nodes are all new and unshared, or the falsiness test; the symbol table is unchanged |
| Interpreter.Interp.ApplyValueOp | golfscript.js:194-213 | `` ) ( ` ~ `` have the effect stated by `Effect`; `$` is dispatched to `dollarSign`; unless the operator runs code (`$`, or `~` on a block or a string), the symbol table is unchanged and every existing value keeps its data, except the top under `)` and `(` |
| Interpreter.Interp.DoAction | golfscript.js:166-219 | an operator on a stack lower than its `minArgs` bound fails before anything changes; otherwise the operator has the effect `Effect` states for it and the cursor moves by one, and unless it runs code (`$`, or `~` on a block or a string) the symbol table is unchanged and every existing value keeps its data, except the top under `)` and `(`; a space that is not bound only moves the cursor; any other character leaves cursor and state unchanged |
| Interpreter.Interp.ScanLiterals | golfscript.js:43-48 | the first six matchers move the cursor forward, and change nothing when they leave it in place |
| Interpreter.Interp.ScanActions | golfscript.js:49-52 | the last four matchers move the cursor forward, and change nothing when they leave it in place |
| Interpreter.Interp.Step | golfscript.js:42-53 | one pass of the matcher chain moves the cursor forward; it stays put only if nothing changed |
| Interpreter.Interp.Interpret | golfscript.js:36-63 | runs passes until the end of the text; an empty program changes nothing |
| Interpreter.Run | golfscript.js:358-361 | the printed text is `prettyPrint` of the stack the program leaves; an empty program leaves an empty stack and prints nothing |

## Left out

- `console.log` in `interpret` (golfscript.js:358-361): `Interpreter.Run` returns the text, and the final stack, instead of printing it.
- `partial` (golfscript.js:8-13) is never called.
- The variables `state`, `prev` and `counter` of `_interpret` (golfscript.js:37-40, 54-60) are never assigned, so their branch is dead.
- Numbers are unbounded integers. JavaScript doubles are not modelled: precision beyond 2^53, exponent notation in `toString`, and negative zero.
- Interpreter.Interp.Div: a quotient that is not an integer, and division by zero, give `Inexact` instead of a double (`Infinity`, `NaN` or a fraction).
- Interpreter.Interp.Add, Interpreter.Interp.Sub, Interpreter.Interp.Mult: operands that are not both numbers give `TypeConfused`. JavaScript's own conversions are not modelled: `+` would concatenate as text, and `-` and `*` would coerce numeric text to a number (`"3" "1"-` leaves 2) or give `NaN`.
- Interpreter.Interp.Inc, Interpreter.Interp.Dec: a top that is not a number gives `TypeConfused` instead of JavaScript's coercion.
- Interpreter.Interp.Quote: an array on top gives `TypeConfused`. The source pushes a string node with undefined data.
- Interpreter.Interp.Loop: a condition or body that is a number or an array gives `TypeConfused`. The source runs a number as an empty program, because its length is undefined. It runs an empty array as an empty program too. A non-empty array makes `nextIdentifier` call `substring` on an array, which throws a `TypeError`.
- Interpreter.Interp.Swap2: requires three elements. The source only calls it through `minArgs` with 3.
- Interpreter.Interp.DollarNumber: n equal to the remaining height, or negative, gives `BadIndex`. There the source deep-copies `undefined` and `JSON.parse` throws.
- Interpreter.Interp.DollarArray, Interpreter.Interp.SortNumbers: in an array of two or more elements, an element that is not a number gives `TypeConfused`. JavaScript's coercion in the comparator `a.data - b.data` is not modelled: strings or blocks of numeric text and empty arrays compare as numbers (`["10" "9"]$` gives `['9','10']`), and other elements give `NaN`, which leaves the order unspecified.
- Interpreter.Interp.DollarBlock, Interpreter.Interp.SortByBlock, Interpreter.Interp.BlockKeys: their contracts state a permutation sorted by some keys, one per element. They do not link a key to the number the block leaves when run on that element alone, because running a block has no functional summary in this model; so any sorted permutation meets them.
  - The source runs the block twice per comparison, and on an array of two or more elements every element takes part in some comparison. The model runs it once per element. The two agree when the block is deterministic and has no lasting effects; a block that binds a name or changes a value in place can tell them apart.
  - A key that is not a number gives `TypeConfused`.
  - A block that changes the array's elements while the keys are computed gives `TypeConfused`.
  - Stability is not promised, and any sorted permutation satisfies the contract.
- Interpreter.Interp.DollarSign: its own contract states only that an empty stack underflows. The promises for each kind are on DollarNumber, DollarString, DollarArray and DollarBlock.
- Interpreter.Interp.Tilde: for a block or a string, the contract says nothing about the outcome. Running the text on the same stack happens in its body but is not summarised.
- Interpreter.Interp.Loop: its contract states only the underflow. The rounds of condition and body are modelled in its body but are not summarised in a postcondition.
- Interpreter.Interp.DoAction, Interpreter.Interp.ApplyValueOp: `Effect` says nothing about `$`, nor about `~` on a block or a string. Those run code, and their outcome is stated only where DollarSign, its helpers and Tilde state it.
- Interpreter.Interp.Interpret: no postcondition relates a whole program to its effect. The promises are per pass (`Step`) and per matcher.
- Interpreter.Interp.CheckPushArray: the elements of the new array are whatever the nested run leaves. They are not related to the text in the contract.
- Running out of `fuel` (`OutOfFuel`) bounds nested runs and loop rounds. The source has no such bound, and an unbounded `while` really does not stop there.
- A missing closing `}`, `]` or `"` makes the source's scan run forever. The model reports `Unterminated`.
- A character that no matcher accepts, such as a newline, `]` or an unbound letter, makes the source's `_interpret` loop forever. The model reports `Stuck`.
- String literals keep their text raw, backslashes included: `checkPushString` does not unescape `\"`.
- Quoting a negative number and running the result does not give the number back: the leading `-` is read as subtraction. `Text.QuotedNumberRereads` is therefore stated for non-negative numbers.
- A space bound in the symbol table makes a space act as `!`. This is modelled as the code does it.
- `ident in symbolTable` in the source also sees names inherited from `Object.prototype` (such as `toString`). The model's table holds only bound names.
- Text is a sequence of Unicode scalar values. The character sort compares those values, whereas JavaScript compares UTF-16 code units. The two orders differ only outside the Basic Multilingual Plane.
