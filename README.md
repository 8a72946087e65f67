# Amazon master audit: the reconciliation core in Dafny

`app.py` is a Streamlit page that takes three Amazon seller reports and
reconciles them into one master table per ASIN:

- an **Ad Report** (sponsored-products campaigns);
- a **Business Report** (ordered product sales per child ASIN);
- an **Inventory Report** (stock per seller SKU and warehouse condition).

The reconciliation:

1. Trims the headers.
2. Finds each column it needs by keyword (`find_col`).
3. Keeps the `SELLABLE` inventory.
4. Tags every SKU with one of six brands (`get_brand_robust`).
5. Sums the stock per (ASIN, brand).
6. Cleans the money columns (`clean_numeric`).
7. Aggregates the ads per advertised ASIN.
8. Outer-joins the three tables, coalescing `Final_ASIN`, and fills the gaps with 0.
9. Resolves item names and brands.
10. Computes ACOS and TACOS.

This project models that core and proves what it promises.

| file | module | models |
|---|---|---|
| `wrappers.dfy` | `Wrappers` | `Option`, for Python's value-or-`None` |
| `text.dfy` | `Text` | `strip`, `upper`, `lower`, substring `in`, `replace(p, '')` |
| `decimal.dfy` | `Decimal` | decimal digit strings and `str(n)` |
| `cells.dfy` | `Cells` | a DataFrame cell: text, number, NaN, or another object; `str()`, `fillna(0)` |
| `numeric.dfy` | `Numeric` | `clean_numeric` and the decimal grammar it hands to `pd.to_numeric` |
| `tables.dfy` | `Tables` | a report as headers plus rows, header trimming, the in-place column cleaning |
| `columns.dfy` | `Columns` | `find_col` |
| `brands.dfy` | `Brands` | `BRAND_MAP`, the brand keyword table, `MAISON_REF`, `get_brand_robust` |
| `grouping.dfy` | `Grouping` | filtering, the distinct keys of a `groupby`, per-key sums |
| `merge.dfy` | `Merge` | pandas' `merge(..., how='outer')` on one key |
| `inventory.dfy` | `Inventory` | the sellable filter, SKU brand tagging, the stock pivot |
| `ads.dfy` | `Ads` | the ad aggregate: sum, sum, first |
| `master.dfy` | `Master` | the two outer merges, the `Final_ASIN` coalescing, `fillna(0)` |
| `resolution.dfy` | `Resolution` | item names, brands, ACOS and TACOS |
| `pipeline.dfy` | `Pipeline` | the whole run: column lookup, the stages, or the exception |

Cells are a datatype. A report is
`Table(headers, rows)`, with each row a sequence of cells aligned with the
headers. Money is `real`.

The operations written as loops in `app.py` are methods with loops, each
proved equal to a specification function:

- `find_col` is `Columns.FindCol`;
- `get_brand_robust` is `Brands.GetBrandRobust`, with its `+=` text building and its early return over the ordered brand table;
- each `.apply` is a loop: `Tables.CleanColumn`, `Inventory.TagBrands`, `Resolution.ResolveNames` and `Resolution.ResolveBrands`.

The column assignments at lines 72-101 are modelled by `Pipeline.Build`. It runs stage by stage and rebinds a row sequence. pandas' vectorised operations are functions: the filter, `groupby().sum()`, `merge`, `fillna` and the ratio columns.

When a column that is indexed later is not found, `find_col` gives `None`
and the run stops with an exception. The model says `Raised` then. A
missing `seller-sku` column is harmless: the SKU field is simply left out of
the brand scan.

Where the code and a description of its behaviour could differ, the code is
followed:

- the master table is not de-duplicated per ASIN;
- a missing campaign column stops the run like any other missing column;
- no `%` sign is stripped from the money columns.

## Model

| member | source | states |
|---|---|---|
| Text.Strip | app.py:25 | Python's `strip()`: the result has no whitespace at either end, is no longer than the input, and uses only its characters |
| Text.StripPadded | app.py:25 | stripping text that is surrounded only by whitespace gives back exactly that text |
| Text.Remove | app.py:25 | `replace(p, '')` never lengthens the text and introduces no character |
| Text.RemoveCharGone | app.py:25 | after removing a one-character pattern, that character no longer occurs |
| Text.RemoveAbsent | app.py:25 | a text in which the pattern's first character never occurs is left unchanged |
| Text.RemoveCharConcat | app.py:25 | removing a single character works piece by piece over a concatenation |
| Text.Upper | app.py:41-43 | `upper()` on ASCII: the same length, no lower-case letter left, every other character kept in place |
| Text.Lower | app.py:51-52 | `lower()` on ASCII: the same length, no upper-case letter left, every other character kept in place |
| Text.AbsentCharNotContained | app.py:46 | a keyword containing a character the text lacks is not a substring of the text |
| Decimal.NatToStringValue | app.py:26 | reading back the decimal numeral of n gives n |
| Decimal.DigitsValueAppend | app.py:26 | the value of two digit strings side by side is the first value times a power of ten plus the second |
| Decimal.LeadingDigitsOf | app.py:26 | the leading digit run of digits followed by a non-digit is exactly those digits |
| Decimal.Fraction | app.py:26 | the value of the digits after a decimal point is at least 0 and below 1 |
| Cells.FillZero | app.py:94 | `fillna(0)` on one cell: NaN becomes 0, anything else is kept, and the result is never NaN |
| Cells.IsZero | app.py:97-98 | the `!= 0` tests: a cell equals 0 only when it is the number zero, never when it is text or NaN |
| Cells.Value | app.py:79 | what a cell adds to a pandas sum: its number, and nothing for NaN; non-numeric text counts as 0 (see "## Left out") |
| Cells.RenderNumber | app.py:76 | `str()` of a number: a minus sign exactly when it is negative, a trailing point exactly when a non-negative number has a fraction, and a whole non-negative number is a numeral that reads back as itself |
| Cells.Render | app.py:41-43 | `str()` of a cell: text is itself, NaN is "nan", a number is non-empty and signed exactly when negative, a whole non-negative number reads back as itself |
| Numeric.CleanNumeric | app.py:23-28 | the result is always a number or NaN, never an exception; an int, float or NaN is returned unchanged; any other non-string is 0.0; a string whose cleaned text does not parse is 0.0 |
| Numeric.StripTokens | app.py:25 | the four removals and the strip only delete: the text is no longer than before and holds no character it did not have |
| Numeric.StripTokensRemovesSeparators | app.py:25 | the cleaned text contains no `$`, no non-breaking space and no comma, and has no whitespace at either end |
| Numeric.CurrencyCodeSinglePass | app.py:25 | `AED` is removed in one left-to-right pass, so "AAEDED" leaves "AED" behind |
| Numeric.NotANumberKeepsItsText | app.py:25 | cleaning the text "N/A" leaves it as it is, since none of the tokens occurs in it |
| Numeric.ParseNatRoundTrip | app.py:26 | the numeral of every natural number parses back to that number |
| Numeric.ParseDecimalRoundTrip | app.py:26 | "digits.digits" reads, unsigned, as its whole part plus its fraction |
| Numeric.ParseSigned | app.py:26 | a minus sign in front of an unsigned numeral negates its value; without a sign the value is kept |
| Numeric.ParseUnsigned | app.py:26 | an unsigned numeral never reads as a negative value |
| Numeric.ParseNumber | app.py:26 | `pd.to_numeric` on the cleaned text: NaN exactly for the empty text, otherwise a number or a failure, and a negative value only behind a minus sign |
| Numeric.PointAtEitherEnd | app.py:26 | ".5" reads as 0.5 and "5." as 5, as `pd.to_numeric` reads them, while a lone "." is not a number |
| Numeric.UngroupedValue | app.py:25 | removing the thousands commas from a grouped numeral leaves the digits of the same number |
| Numeric.FormattedAmountCleaned | app.py:25 | cleaning "AED [-]1,234.50" leaves the sign, the digits without commas, the point and the cents |
| Numeric.FormattedAmountRoundTrip | app.py:23-28 | every amount written in the report style "AED [-]1,234.50" is cleaned back to exactly that signed value |
| Numeric.CleanGroupedAmountExample | app.py:23-28 | "AED 1,234.50" is cleaned to 1234.5 |
| Numeric.CleanDollarZeroExample | app.py:23-28 | "$0" is cleaned to 0 |
| Numeric.CleanNotANumberExample | app.py:23-28 | "N/A" does not parse and is cleaned to 0.0 |
| Numeric.CleanBareCodeExample | app.py:23-28 | "AED" alone leaves the empty text, which `pd.to_numeric` reads as NaN |
| Tables.TrimHeaders | app.py:72 | every header is replaced by its stripped form, the rows are untouched, and the report stays well formed |
| Tables.Cleaned | app.py:86-87 | cleaning one column replaces exactly that cell of every row by its `clean_numeric` value |
| Tables.CleanColumn | app.py:86-87 | the `.apply(clean_numeric)` loop produces exactly the cleaned column |
| Tables.HeaderIsColumn | app.py:76 | in a well-formed report, every header position is a column of every row |
| Columns.FirstMatch | app.py:49-55 | a returned column is one of the columns, mentions a keyword and no exclude term |
| Columns.Folded | app.py:51 | a folded header is no longer than the header, has no upper-case letter and no whitespace at either end |
| Columns.FirstMatchIsFirst | app.py:49-55 | the returned column is the first accepted one: every earlier column is rejected |
| Columns.FirstMatchNone | app.py:49-55 | `None` exactly when no column is accepted |
| Columns.FindCol | app.py:49-55 | the loop with its `continue` and early `return` gives exactly the first accepted column, or `None` |
| Columns.NoExcludeAcceptsMentions | app.py:52-53 | with no exclude list, a column is accepted exactly when it mentions a keyword |
| Columns.EarlierColumnWins | app.py:50-54 | an accepted column preceded only by rejected columns is returned, whatever follows it |
| Columns.ParentAsinTakenFirst | app.py:83 | the business ASIN lookup takes "(Parent) ASIN" when it precedes "(Child) ASIN", since "asin" matches it |
| Columns.FirstDeclaredHeaderReturned | app.py:83 | of two headers that both contain "ordered product sales", the first is returned |
| Brands.Labels | app.py:32-39 | the brand labels, in the declared order of the keyword table |
| Brands.BrandMapMatchesTargets | app.py:18-21 | `BRAND_MAP` lists the same six brands, in the same order, as the keyword table |
| Brands.LabelsDistinct | app.py:32-39 | the six labels are distinct and none is "Unmapped" |
| Brands.KeywordsNonEmpty | app.py:32-39 | no keyword is empty, so none matches every text |
| Brands.MaisonRefKeysAreAsins | app.py:10-16 | every key of `MAISON_REF` is an ASIN: ten characters beginning with "B0" |
| Brands.ClassifyFrom | app.py:45-47 | the scan from brand b on gives "Unmapped" or a brand at or after b that has a keyword hit |
| Brands.Classify | app.py:45-47 | the brand is "Unmapped" or the label of a brand one of whose keywords occurs in the text |
| Brands.GetBrandRobust | app.py:30-47 | the function gives exactly the classification of the title, SKU and campaign text |
| Brands.ScanText | app.py:40-43 | the scan text is empty exactly when no title, no SKU and no non-NaN campaign is supplied, and it holds no lower-case ASCII letter |
| Brands.ScanTextHoldsFields | app.py:40-43 | each supplied field appears as a space and its upper-cased text: the title at the start, the SKU right after it, then the campaign unless it is NaN |
| Brands.Hits | app.py:46 | `any(kw in text for kw in keywords)`: some keyword of the brand occurs in the text as a substring |
| Brands.BuildScanText | app.py:40-43 | the `+=` steps build " TITLE SKU CAMPAIGN" upper-cased, from the fields supplied, and skip a NaN campaign |
| Brands.FirstBrand | app.py:45-47 | the loop over the ordered brand table, with its early return, gives the first brand with a hit, else "Unmapped" |
| Brands.ClassifyIsLabel | app.py:30-47 | the result is always one of the six labels or "Unmapped" |
| Brands.ClassifyFirstHit | app.py:45-46 | brand i is chosen exactly when it has a keyword hit and no earlier brand has one |
| Brands.ClassifyUnmapped | app.py:47 | "Unmapped" exactly when no brand has a keyword hit |
| Brands.NoFieldsUnmapped | app.py:40-47 | with no field supplied the text is empty and the result is "Unmapped" |
| Brands.MissingCampaignSkipped | app.py:43 | a NaN campaign adds nothing to the text |
| Brands.SkuOnlyText | app.py:40-43 | with only a SKU free of lower-case letters supplied, the scanned text is a space followed by the SKU |
| Brands.EarlierBrandWinsTie | app.py:34-36 | "PCL_001" contains Paris Collection's "PCL" but is Creation Lamis, whose "CL_" hits and is declared earlier |
| Brands.TieHitsBoth | app.py:34-36 | " PCL_001" holds a keyword of Creation Lamis and one of Paris Collection |
| Brands.MaisonMissesTie | app.py:33 | " PCL_001" holds no keyword of Maison de l’Avenir, the first brand tried, so the tie is decided between the later brands |
| Grouping.Filter | app.py:76 | boolean-mask selection keeps exactly the rows that pass, and only those, each as many times as it occurs in the input |
| Grouping.FilterSnoc | app.py:76 | filtering one more row appends it exactly when it passes |
| Grouping.Distinct | app.py:79 | the group keys: every key occurs, each exactly once, and no other value |
| Grouping.SumOfAbsent | app.py:79 | a key with no rows sums to 0 |
| Grouping.SumOfSnoc | app.py:79 | one more value adds to the sum of its own key only |
| Grouping.GroupSumsConserveTotal | app.py:79 | the per-key sums of a `groupby().sum()` add up to the total of all values |
| Grouping.GroupSumsStep | app.py:79 | one more value keeps the per-key sums and the total equal |
| Merge.MatchesOf | app.py:92 | the matching rows are exactly the rows with that key, each as many times as it occurs |
| Merge.Paired | app.py:92 | a left row beside each matching right row, in order |
| Merge.PairedCount | app.py:92 | the pair of the left row with a right row occurs as often as that right row does among the matches |
| Merge.RowsForCount | app.py:92 | a left row's output holds each matching right row as often as it occurs on the right, and the unmatched pair once exactly when nothing matches |
| Merge.RowsFor | app.py:92 | a left row is paired with every matching right row, or with nothing exactly when none matches |
| Merge.LeftPart | app.py:92 | every left row appears in the output, each pairing is key-equal, every matching pair is present, and there are at least as many rows as left rows |
| Merge.LeftPartCount | app.py:92 | a pair with a left row occurs as often as the left row times its count in that row's own output |
| Merge.RightOnly | app.py:92 | the right rows without a match, each exactly when no left row has its key |
| Merge.RightOnlyCount | app.py:92 | an unmatched right row occurs alone as often as it occurs on the right, a matched one never |
| Merge.OuterJoin | app.py:92 | no merged row is empty on both sides, and no merge has fewer rows than its left side |
| Merge.OuterJoinCounts | app.py:92 | the multiplicity of every merged row: a key-equal pair as often as the product of the two rows' counts, a left or right row alone as often as it occurs exactly when nothing on the other side has its key, and never otherwise |
| Merge.OuterJoinSound | app.py:92 | every output pair comes from the inputs, is key-equal when matched, and is alone only when nothing matches |
| Merge.OuterJoinKeepsLeft | app.py:92 | no left row is dropped by an outer merge |
| Merge.OuterJoinKeepsRight | app.py:92 | no right row is dropped by an outer merge |
| Merge.OuterJoinPairs | app.py:92 | every key-equal pair of rows is in the output |
| Inventory.IsSellable | app.py:76 | a condition is sellable when its text, stripped and upper-cased, is exactly "SELLABLE"; `SellableSpellings` and `MissingNotSellable` state what that admits |
| Inventory.SellableSpellings | app.py:76 | "sellable" in any mix of cases, with any whitespace around it, is a sellable condition |
| Inventory.MissingNotSellable | app.py:76 | NaN renders as "nan" and is never sellable |
| Inventory.Sellable | app.py:76 | exactly the rows whose condition, as text, stripped and upper-cased, is "SELLABLE", each as many times as it occurs in the report |
| Inventory.Tagged | app.py:77 | each sellable row becomes an entry with its ASIN, quantity and SKU brand |
| Inventory.SkuBrand | app.py:77 | the `Mapped_Brand` of a sellable row, read from its SKU alone, is a label or "Unmapped", and "Unmapped" when there is no SKU column |
| Inventory.TagBrands | app.py:77 | the `.apply(get_brand_robust)` loop produces exactly the tagged entries |
| Inventory.Pivot | app.py:79-80 | one row per distinct (ASIN, brand) pair with an ASIN, holding the sum of that pair's quantities |
| Inventory.PivotKeysDistinct | app.py:79 | no (ASIN, brand) pair has two pivot rows |
| Inventory.PivotRowFromEntry | app.py:79 | every pivot row has an ASIN and comes from an entry with that ASIN and brand |
| Inventory.PivotCoversEntry | app.py:79 | every entry with an ASIN has a pivot row for its pair |
| Inventory.PivotConservesStock | app.py:79 | the pivot's stock column adds up to the quantities of all entries with an ASIN |
| Inventory.Keyed | app.py:79 | the entries the groupby keeps: exactly those with an ASIN, each as many times as it occurs |
| Inventory.InventoryPivot | app.py:76-80 | no two pivot rows share an (ASIN, brand) pair, and each pivot row's stock is its group's sum over the sellable inventory rows |
| Inventory.StockOfRows | app.py:76-79 | the group sum taken over the tagged entries equals the sum over the sellable inventory rows with that ASIN and SKU brand |
| Inventory.KeptGroupStock | app.py:76-79 | the kept entries' group sum is the raw-row group sum, by induction over the rows |
| Inventory.KeptStock | app.py:76-79 | the kept entries' quantities add up to the stock of all sellable rows with an ASIN |
| Inventory.KeptAdds | app.py:76-79 | a sellable row with an ASIN adds exactly its own entry |
| Inventory.KeptSkips | app.py:76-79 | any other row adds no entry |
| Inventory.InventoryConservesStock | app.py:76-80 | the pivot's stock column adds up to the quantity of every sellable inventory row that has an ASIN: no stock is lost or counted twice |
| Inventory.TaggedFromSellable | app.py:76-77 | an entry comes from a sellable row and carries a brand label or "Unmapped" |
| Inventory.PivotFromSellable | app.py:76-80 | every pivot row has the ASIN of a sellable row and a label or "Unmapped" brand |
| Inventory.NoPivotWithoutSellable | app.py:76-80 | an ASIN with no sellable row has no pivot row |
| Inventory.PivotRowNotFor | app.py:76-80 | one pivot row at a time: it does not have an ASIN none of whose rows is sellable |
| Inventory.SellableRowPivoted | app.py:76-80 | every sellable row with an ASIN has a pivot row for its ASIN and SKU brand |
| Inventory.PivotTagged | app.py:76-80 | every pivot row has an ASIN and a brand label or "Unmapped" |
| Inventory.SellableRowStock | app.py:76-80 | the pivot row of a sellable row holds the quantities of the sellable inventory rows with that row's ASIN and SKU brand, added up over the report |
| Ads.Keyed | app.py:90 | the rows the groupby keeps: exactly those whose ASIN is not NaN, each as many times as it occurs |
| Ads.KeyedAsinSum | app.py:90 | the group sum over the kept rows equals the sum over the report rows with that ASIN |
| Ads.KeyedReportSum | app.py:90 | the kept rows' values add up to the sum over all report rows with an ASIN |
| Ads.FirstPresent | app.py:90 | `first`: NaN exactly when every value for the key is NaN, else the earliest non-NaN value for it |
| Ads.AdAggregate | app.py:90 | one row per distinct advertised ASIN with one |
| Ads.AdAsinsDistinct | app.py:90 | no advertised ASIN has two aggregate rows |
| Ads.AdRowFromReport | app.py:90 | every aggregate row has the ASIN of a report row, and it is not NaN |
| Ads.AdReportRowCovered | app.py:90 | every report row with an ASIN has an aggregate row |
| Ads.AdAggregateRow | app.py:90 | each aggregate row holds the sales and the spend of the report rows with its ASIN, added up over the report, and the first campaign of its ASIN |
| Ads.AdAggregateConservesTotals | app.py:90 | the aggregate's sales and spend columns add up to the sales and spend of every report row with an ASIN |
| Master.BizRows | app.py:92 | the ASIN, title and sales cells of every business row |
| Master.FirstMerge | app.py:92 | one master row for each pair of the outer merge of the pivot and the business rows |
| Master.Coalesced | app.py:93 | `Final_ASIN` takes the business ASIN exactly where it is NaN, and nothing else changes |
| Master.SecondMerge | app.py:94 | one master row for each pair of the outer merge on `Final_ASIN` against the ad aggregate |
| Master.FillRow | app.py:94 | a filled row has no NaN in its merged columns, and its name and ratio columns are untouched |
| Master.Filled | app.py:94 | `fillna(0)` over the whole merged table: the same number of rows, each one the zero-filled form of the row at that position |
| Master.FillRowFillsGapsOnly | app.py:94 | `fillna(0)` leaves no NaN, turns NaN into 0 and keeps every value that was present |
| Master.FirstMergeKeepsPivot | app.py:92 | every pivot row reaches the first merge with its ASIN, brand and stock |
| Master.FirstMergeKeepsBiz | app.py:92 | every business row reaches the first merge with its ASIN, title and sales |
| Master.CoalescedAsin | app.py:92-93 | a row that has a pivot side keeps the pivot ASIN, and a business-only row takes the business ASIN |
| Master.SecondMergeKeepsMaster | app.py:94 | every master row passes the second merge with its inventory and business fields |
| Master.SecondMergeKeepsAd | app.py:94 | every ad aggregate row reaches the second merge with its sums and campaign |
| Master.AdOnlyRowHasZeroAsin | app.py:94 | an ad row matching no master row ends with `Final_ASIN` 0 once gaps are filled |
| Master.MergedKeepsPivot | app.py:92-94 | the merged table keeps every pivot row's ASIN, brand and stock |
| Master.MergedKeepsBiz | app.py:92-94 | the merged table keeps every business row, NaN read as 0 |
| Master.MergedKeepsAd | app.py:92-94 | the merged table keeps every ad aggregate row with its sums |
| Master.MergedNoGaps | app.py:94 | no merged cell is NaN |
| Master.MergedBrands | app.py:92-94 | every merged brand is a label, "Unmapped" or the filled-in 0 |
| Master.CoalescedAsinFrom | app.py:92-93 | every coalesced `Final_ASIN` comes from the pivot or from the business report |
| Master.MergedAdOnly | app.py:92-94 | an advertised ASIN in neither the pivot nor the business report gets a row with `Final_ASIN` 0 |
| Master.Merged | app.py:92-94 | the merge, coalesce, merge and fill together leave no merged cell NaN; `MergedKeepsPivot`, `MergedKeepsBiz`, `MergedKeepsAd` and `MergedBrands` state what it keeps |
| Resolution.ItemName | app.py:97 | the item name is never NaN and never 0 |
| Resolution.CuratedNameWins | app.py:97 | an ASIN in `MAISON_REF` gets its curated name, whatever the title |
| Resolution.TitleOrNotAvailable | app.py:97 | otherwise the title, unless it is NaN or 0, in which case "N/A" |
| Resolution.KeepsBrand | app.py:98 | the test that keeps a brand: it is neither 0 nor "Unmapped" |
| Resolution.ResolvedBrand | app.py:98 | a brand that is neither 0 nor "Unmapped" (`KeepsBrand`) is kept; any other is replaced by a label or "Unmapped" read from the title and campaign; the result is never 0 |
| Resolution.ResolvedBrandIsLabel | app.py:98 | the resolved brand is always text: a label or "Unmapped" |
| Resolution.InventoryBrandKept | app.py:98 | a label that comes from the inventory is never replaced by the re-scan |
| Resolution.NamesResolved | app.py:97 | each row gets its resolved item name and is otherwise unchanged |
| Resolution.BrandsResolved | app.py:98 | each row gets its resolved brand and is otherwise unchanged |
| Resolution.ResolveNames | app.py:97 | the `.apply` loop produces exactly the rows with resolved names |
| Resolution.ResolveBrands | app.py:98 | the `.apply` loop, which calls `get_brand_robust` on the title and campaign, produces exactly the rows with resolved brands |
| Resolution.SafeRatio | app.py:100-101 | the ratio times a non-zero denominator gives the numerator back; a zero denominator (inf or NaN) gives 0 |
| Resolution.WithRatios | app.py:100-101 | ACOS is spend over ad sales, TACOS is spend over business sales, each guarded |
| Resolution.SafeRatioSign | app.py:100-101 | a non-negative spend over positive sales gives a non-negative ratio; zero spend gives 0 |
| Resolution.Finished | app.py:97-101 | the finished table has one row per merged row, each the completion of its merged row |
| Resolution.FinishedRow | app.py:97-101 | each finished row is its merged row with name, brand, ACOS and TACOS filled in |
| Resolution.Completed | app.py:97-101 | completing a row fills only the name, brand and ratios; ASINs, stock, title, sales, spend and campaign are kept |
| Resolution.FinishedFrom | app.py:97-101 | every finished row completes some merged row |
| Resolution.FinishedHas | app.py:97-101 | every merged row is completed into a finished row |
| Resolution.FinishedKeepsPivot | app.py:92-98 | every pivot row reaches the finished table with its ASIN and stock, and its brand unless that is "Unmapped" |
| Resolution.FinishedKeepsSellable | app.py:76-98 | every sellable row with an ASIN reaches the finished table with the stock of its (ASIN, SKU brand) group, and a brand its SKU names |
| Resolution.FinishedKeepsBiz | app.py:92-94 | every business row reaches the finished table with its ASIN, title and sales, NaN read as 0 |
| Resolution.FinishedKeepsAd | app.py:94-100 | every ad aggregate row reaches the finished table with its sums and the ACOS they give |
| Resolution.FinishedAdOnly | app.py:92-94 | an ad row whose ASIN is in neither the pivot nor the business rows ends with `Final_ASIN` 0 |
| Resolution.FinishedBrands | app.py:77-98 | when every pivot brand is a label or "Unmapped", so is every finished brand |
| Resolution.FinishedComplete | app.py:94-101 | no finished cell is NaN, every item name is a name or "N/A", and both ratios are numbers |
| Pipeline.Locate | app.py:75-84 | the position of the column `find_col` names, or `None` exactly when it names none |
| Pipeline.FindRolesSpec | app.py:75-84 | the roles found are column positions of their reports |
| Pipeline.Lookup | app.py:75-84 | `find_col` followed by the column's position |
| Pipeline.FindRoles | app.py:75-84 | the eleven `find_col` calls, giving the roles or `None` |
| Pipeline.PivotOf | app.py:76-80 | the pivot built from the inventory report and its columns has distinct (ASIN, brand) keys, and each row's stock is its group's raw-row stock |
| Pipeline.StockOfGroup | app.py:79 | the raw-row stock of one (ASIN, brand) group, read through the pipeline's column roles; `PivotOf` and `SellableRowReported` state it |
| Pipeline.BizOf | app.py:86-92 | one business row per report row, its sales cleaned by `clean_numeric` and its ASIN and title as read |
| Pipeline.AdRowsOf | app.py:87 | the cleaned ad report keeps its rows and its row width |
| Pipeline.AdsOf | app.py:87-90 | the ad aggregate over the cleaned ad report has no two rows with the same ASIN |
| Pipeline.BuildPivot | app.py:76-80 | the filter, the brand tagging loop and the pivot compute exactly the inventory pivot |
| Pipeline.BuildBiz | app.py:86 | the in-place cleaning of the business sales yields exactly the business rows of the first merge |
| Pipeline.BuildAds | app.py:87-90 | cleaning sales, then spend, then aggregating yields exactly the ad aggregate |
| Pipeline.Finish | app.py:92-101 | merging, coalescing, filling and the three resolution steps yield exactly the finished master table |
| Pipeline.Build | app.py:76-101 | the stages together compute exactly the reconciled master table |
| Pipeline.Reconciled | app.py:76-101 | the master table once every column is found: no cell is NaN and both ratios are numbers; `ReconciledRowsComplete` adds the brands and item names |
| Pipeline.Reconcile | app.py:72-101 | the run: trim, find the columns, then the reconciled table, or `Raised` |
| Pipeline.ReconcileSpec | app.py:72-101 | the run raises exactly when column lookup fails; otherwise every master row is free of NaN, has a label or "Unmapped" brand and numeric ACOS and TACOS |
| Pipeline.ReconciledRowsComplete | app.py:94-101 | every row of the reconciled table is free of NaN, with a label or "Unmapped" brand and two numeric ratios |
| Pipeline.RaisedIffColumnMissing | app.py:75-84 | the run raises exactly when one of the ten indexed columns is not found; the SKU column is not among them |
| Pipeline.PivotRowsTagged | app.py:76-80 | every pivot row has an ASIN and a label or "Unmapped" brand |
| Pipeline.ReconciledBrands | app.py:77 | every brand in the master table is one of the six labels or "Unmapped" |
| Pipeline.ReconciledComplete | app.py:94 | no master cell is NaN; every item name is a name or "N/A"; ACOS and TACOS are numbers |
| Pipeline.SellableRowReported | app.py:76-98 | every sellable row with an ASIN reaches the master table with the stock of its (ASIN, brand) group; a brand its SKU names is kept |
| Pipeline.BusinessRowReported | app.py:86-94 | every business row reaches the master table with its ASIN, title and cleaned sales, NaN read as 0 |
| Pipeline.AdvertisedAsinReported | app.py:87-100 | every advertised ASIN reaches the master table with its summed sales and spend, and the ACOS computed from them |
| Pipeline.AdOnlyAsinHasZeroFinalAsin | app.py:92-94 | an advertised ASIN in neither the sellable inventory nor the business report ends with `Final_ASIN` 0 |

## Left out

- The Streamlit page is presentation and is not modelled: app.py:7, 57-67, 103-121. This covers the page set-up, the uploaders, the four metrics, the per-brand tabs and the brand summary at line 115, which groups the finished table only for display. `Numeric.FormatAed` writes amounts as the metrics at lines 107-109 show them, but only to state the `clean_numeric` round trip.
- Reading the files (app.py:68-70) and the Excel export (app.py:123-126) are I/O and are left out. The model starts from the three reports as tables and ends with the master table.
- `Numeric.ParseNumber` accepts an optional sign and a decimal numeral with at least one digit. As with `pd.to_numeric`, the point may stand at either end: ".5" reads as 0.5 and "5." as 5 (`Numeric.PointAtEitherEnd`). The empty text reads as NaN, as `pd.to_numeric("")` does. The model does not cover the rest of the `pd.to_numeric` grammar: exponents, "inf" and "nan".
- `Numeric.CleanNumeric` is not claimed idempotent. A parsed integer string comes back as a numpy integer, which is not an `int` or `float` instance, so the model does not follow numpy dtypes.
- `Cells.RenderNumber` writes only the integer part of a number, then a point when there is a fraction. Python's float formatting is not modelled. Numbers reach `str()` only in the condition and brand texts, where a fraction does not change a match.
- Floating point: money is `real`. The infinity and NaN produced by a zero denominator are modelled as the guarded result 0.
- `Text.Upper` and `Text.Lower` map only the ASCII letters, and leave every other character unchanged. The keywords and the headers the code looks for are ASCII. However, Python's full case mapping also turns some non-ASCII letters into ASCII ones: `'ſ'.upper()` is "S", `'ı'.upper()` is "I", and the Kelvin sign U+212A lowers to "k". So a condition cell "ſellable" passes the SELLABLE filter in Python and fails it in the model, and the same holds for headers and brand codes spelled with such letters.
- The order of rows is not modelled. `groupby` and `merge` sort their keys in pandas; here the keys appear in first-appearance order. The properties above are about which rows exist, how many times (`Merge.OuterJoinCounts`, the multiset counts of the filters) and what they hold, never about their order.
- Column-name collisions are not modelled. The master table has a fixed record per row, with the pandas suffixes, duplicate headers and two roles naming the same column left out. Non-text headers are treated as their text.
- Key type mismatches in the merges are not modelled. pandas can raise on them, or fail to match a number with its text, and the model compares cells as values.
- Cells: CSV and Excel readers give NaN rather than `None`, so `None` cells and booleans (`True == 1` in pandas) are not modelled.
- `Cells.Value`, and through it `Inventory.GroupStock` and `Inventory.SellableStock`, do not model quantity columns that stay text. If one quantity is neither a number nor a missing-value token, `read_csv` keeps the whole column as text. pandas' group sum then concatenates each group's quantities, so "5" and "7" give Stock "57". The model reads every non-numeric quantity as 0 and always sums numbers.
- `Pipeline.Reconcile` looks up all columns first and raises if any required one is missing. Python raises at the first indexing, after some stages have already run. No output exists in either case, and the model does not say which Python exception is raised.
- `Pipeline.SellableRowReported`: the brand that reaches the master table is stated only when the SKU names a brand. An "Unmapped" SKU brand is re-scanned from the title and campaign (`Resolution.ResolvedBrand`); its result is covered by `Pipeline.ReconciledBrands` only.
