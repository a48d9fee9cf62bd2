# Migotos blog post mutations and litter year filter, in Dafny

This project models two pieces of the Migotos cattery website.

**Blog post router** (`blogpost.dfy`, module `BlogPost`). The three admin-only
remote procedures are `createBlogPost`, `deleteBlogPost` and `updateBlogPost`.
The post table is a `map<int, Post>` held in the class `PostRouter`, beside the
auto-increment counter `nextId`. Each method runs the steps in the router's
order:
1. The input schema is checked. `FieldsIssues` lists every failed check, in
   field order, as zod does. A failed schema returns `Invalid(issues)`.
2. The role is checked. A caller who is not an admin gets `Forbidden`, which
   stands for `{ success: false, msg: "You are not an admin" }`.
3. Delete and update look the id up. A missing id gives `NotFound`, which
   stands for `{ success: false, msg: "Blogpost not found" }`.
4. Exactly one row is created, removed or overwritten.

Each method's postconditions give the whole new table. They also say that no
other row changes and that every failure leaves the table as it was.

The date limit `addHours(new Date(), 4)` is evaluated once per schema, when
the router object is built. So `createBound` and `updateBound` are constants
of the router, set from clock readings passed to its constructor. Both
`.min` and `.max` length bounds are inclusive: a 255-character title and a
2000-character body are accepted, even though the messages say "less than".
Whether the caller is an admin is a parameter of each method. So is zod's
URL check, a `string -> bool` fixed at construction.

**Litter listing page** (`kittens.dfy`, module `Kittens`). The class
`LittersPage` holds the page's props and its two state cells: `littersArray`
(starts as all litters) and `currentFilter` (starts as null).
`FilterByYear(sel)` does three things:
- It sets the filter text to `year.toString()`.
- For `All`, it shows every litter again.
- For a year, it shows the litters whose birth year has the same text.

The source compares the years as text. `Decimal` models JavaScript's integer
`toString` and proves it injective, so comparing the text is the same as
comparing the numbers. The filter always starts from the full list. The
shown list is therefore a function of the latest selection alone, and it is
the subsequence of litters born in that year, in their original order.
`YearsArray` is the mapping of the distinct-years query rows to numbers.

The date limit is computed once, when the router is built. Once the server
has been up for more than four hours, a post dated at the time of the
request is refused as future-dated (`BlogPost.StaleBoundRejectsPresent`).

## Model

| member | source | states |
|---|---|---|
| BlogPost.TitleIssues | src/server/api/routers/blogpost.ts:12-17 | no issue exactly when 5 <= length <= 255 (both bounds inclusive); too-short and too-long are each reported exactly when their bound is crossed |
| BlogPost.BodyIssues | src/server/api/routers/blogpost.ts:18-23 | no issue exactly when 5 <= length <= 2000; each bound's issue reported exactly when it is crossed |
| BlogPost.PostDateIssues | src/server/api/routers/blogpost.ts:24-28 | a date is accepted exactly when it is at or before the bound; a date equal to the bound passes |
| BlogPost.ImageUrlIssues | src/server/api/routers/blogpost.ts:29-32 | null is accepted; a string is accepted exactly when it parses as a URL |
| BlogPost.FieldsIssues | src/server/api/routers/blogpost.ts:10-34 | the object schema has no issue exactly when all four fields are accepted; it reports exactly the issues of the four field checks, at most four in all |
| BlogPost.FieldsIssuesReportEachFailure | src/server/api/routers/blogpost.ts:10-34 | each kind of issue appears in the object's report exactly when its own field fails its bound, date limit or URL check |
| BlogPost.MessagesIdentifyIssues | src/server/api/routers/blogpost.ts:14-31 | two failed checks have the same message exactly when they are the same check, so each field-level message names one failure; the "less than 255/2000" messages belong to lengths above 255 and 2000, which `TitleIssues` and `BodyIssues` reject |
| BlogPost.StaleBoundRejectsPresent | src/server/api/routers/blogpost.ts:88-92 | with a bound fixed at load time, a post dated at a request more than four hours later is refused as future-dated |
| BlogPost.PostRouter.constructor | src/server/api/routers/blogpost.ts:8-92 | both date bounds are the construction-time clock readings plus four hours and are constants afterwards; the table starts as given |
| BlogPost.PostRouter.FindUnique | src/server/api/routers/blogpost.ts:57-64 | finds a post exactly when its id is a key of the table, and returns that row, whose id is the key |
| BlogPost.PostRouter.CreateBlogPost | src/server/api/routers/blogpost.ts:9-49 | invalid input returns all its issues; valid input from a non-admin returns Forbidden; either way the table is unchanged; otherwise exactly one new row under a fresh id carries the four given fields and no existing row changes |
| BlogPost.PostRouter.DeleteBlogPost | src/server/api/routers/blogpost.ts:50-71 | non-admin: Forbidden; absent id: NotFound; both leave the table unchanged; a present id removes exactly that entry and returns the removed post |
| BlogPost.PostRouter.UpdateBlogPost | src/server/api/routers/blogpost.ts:72-124 | invalid input, non-admin and absent id each leave the table unchanged with their own outcome; a present id has its four fields replaced, keeps its id, and every other row is unchanged |
| Decimal.IntToString | src/pages/kittens/index.tsx:26 | the text of an integer starts with '-' exactly when it is negative, is otherwise all digits, and has a leading zero only for zero |
| Decimal.IntToStringRoundTrip | src/pages/kittens/index.tsx:26 | reading back the decimal text of any integer gives that integer |
| Decimal.IntToStringInjective | src/pages/kittens/index.tsx:26 | two integers have the same `toString()` text exactly when they are equal |
| Kittens.SelectionText | src/pages/kittens/index.tsx:20 | the filter text is "All" exactly for the sentinel, and a year's text reads back as that year |
| Kittens.SelectionTextInjective | src/pages/kittens/index.tsx:20 | two selections leave the same filter text exactly when they are the same selection |
| Kittens.YearsArray | src/pages/kittens/index.tsx:86 | the years array has the same length as the query rows, and each entry is its row's year, in order |
| Kittens.FilterByBornYear | src/pages/kittens/index.tsx:24-27 | the filtered list is no longer than the original and holds only litters of the original |
| Kittens.FilterByBornYearIsBornIn | src/pages/kittens/index.tsx:24-28 | the text comparison keeps exactly the litters whose birth year equals the selected year, in original order |
| Kittens.FilterByBornYearMembership | src/pages/kittens/index.tsx:24-27 | a litter is shown exactly when it is in the list and was born in the selected year |
| Kittens.FilterByBornYearCount | src/pages/kittens/index.tsx:24-27 | each litter of the selected year is kept as often as it occurs, and no other litter is kept |
| Kittens.FilterByBornYearIsSubsequence | src/pages/kittens/index.tsx:24-27 | the filtered list is a subsequence of the original list |
| Kittens.SubsequenceLength | src/pages/kittens/index.tsx:24-27 | a subsequence is never longer than its source, so filtering never lengthens the list |
| Kittens.FilterByBornYearIdempotent | src/pages/kittens/index.tsx:24-28 | the year filter is idempotent as a function: re-filtering its result by the same year changes nothing (the page itself always filters the full list; see `FilterByYear`) |
| Kittens.YearFilterExample | src/pages/kittens/index.tsx:19-30 | litters born in 2021, 2022, 2022: selecting 2022 shows the two 2022 litters, selecting All shows all three |
| Kittens.LittersPage.constructor | src/pages/kittens/index.tsx:15-17 | the years prop is `YearsArray` of the distinct-years rows; the shown list starts as the full litters list and the filter starts as null |
| Kittens.LittersPage.FilterByYear | src/pages/kittens/index.tsx:19-30 | in both branches the filter text becomes the selection's `toString()`; All restores exactly the original litters; a year shows exactly the litters born that year, in order, computed from the original list, so the new state depends only on the latest selection and a second call with the same selection leaves the state as the first did |

## Left out

- Database access (`db.blogPost.*`, `db.litter.findMany`, the raw distinct-years query). The table is a map. The litter list and the query rows are inputs. Their order and distinctness come from the database.
- Post ids are assumed to come from an auto-increment counter that never reuses an id. The database schema is not part of this model.
- Database errors, and races between concurrent requests. The model has one caller at a time and no thrown faults.
- tRPC and zod plumbing, and the session and role lookup. These become the `isAdmin` parameter.
- Inputs of the wrong type, such as a non-number id, a non-integer or NaN id, or an invalid `Date`. The model's types exclude them.
- zod's URL parser. It is a function parameter of the router and is not interpreted.
- String lengths are counted in Dafny characters, not JavaScript UTF-16 code units. A title with characters outside the Basic Multilingual Plane is counted differently.
- JavaScript `Date` and time zones. Timestamps are integer milliseconds. A litter's birth date is reduced to the year that `getFullYear` would give.
- Decimal.IntToString: writes integers in plain decimal only. JavaScript writes numbers of magnitude 1e21 and above in exponent notation, which no year reaches.
- Rendering of both pages. The `FilterLitters` component, which supplies the selection, is not part of this model.
- React's batching of the two state updates. `FilterByYear` applies both at once.
