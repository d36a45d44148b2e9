# A verified model of the Nestlé chatbot's data pipeline and retrieval logic

The repository crawls the madewithnestle.ca site, cleans what it finds into search-index
records and a product graph, and answers questions through a retrieval-augmented chat service
with a React front end. This project models, in Dafny, the deterministic logic around the
browser, the search index, the graph database and the language model, and proves what that
logic promises. Each source file of the core has its own module:

- `CommonUtils` and `RootUtils` cover the helpers of `common/utils.py` and `utils.py`:
  whitespace cleaning, `_` and `-` slugs, record ids and the `safe_*` accessors.
- `Citations` covers the front end's citation renumbering (`frontend/src/features/chatBot/utils.ts`).
- Five modules cover the cleaners' embedding-text builders and processing loops:
  - `VectorProductCleaner` and `LegacyProductCleaner` (products);
  - `VectorRecipeCleaner` (recipes);
  - `VectorArticleCleaner` and `LegacyArticleCleaner` (articles).
- `IndexedDocuments` is the index record they build.
- `GraphCleaner` is the brand/product/edge normalisation of `scripts/graph/clean_graph_data.py`.
- `GraphEditing` and `ChatApi` are the validation and status decisions of the two API routers.
- `RagService`, `VectorRagService` and `HybridRag` cover the retrieval services:
  - the numbered context and its aligned sources;
  - the chat messages;
  - the most frequent brand or name;
  - the graph context and its merge;
  - the keyword rerank.
- `BaseCrawler` models the crawlers' shared logic:
  - host tests;
  - the reference join;
  - the redirect and broken-link probes;
  - `get_text(strip=True)`;
  - `load_page_content` with its "click next until absent" loop.
- The crawlers' decision rules over pages given as data are in `SitemapCrawler`,
  `ProductCrawler`, `RecipeCrawler` and `ArticleCrawler`.

Four modules are shared by the rest:
- `Text` holds ASCII string operations: `strip`, `lower`, `split`, `join` and the
  run-replacing regular expressions.
- `Json` holds the JSON values the scripts load and the Python operations applied to them,
  with their exceptions and pydantic's field checks.
- `Batch` is the "process each item, drop the failures, keep the order" loop, and the "extend
  per seed until an exception" loop.
- `Wrappers` is `Option`.

Python exceptions are values: each operation that may raise returns a `Result`, and a loop
that catches exceptions is modelled by what it keeps. Where the source mutates state step by
step, the model has a method with a loop, proved equal to a specification function. The
specification's properties are proved as lemmas. The product crawler's side lists and the base
crawler's browser fields are fields of classes whose methods update them.

The browser, the HTML parser, the search index, the graph database, the language model and the
clock are parameters:
- a page is the data its selectors would extract;
- a probe is its outcome;
- a query is its result;
- a timestamp is a string argument.

Where the prose documentation and the code disagree, the model follows the code:
- `product_line` can be `""`;
- an article without a heading gives no record;
- a card without a link is dropped through the exception its own handler raises;
- the files keep their mismatched field names.

## Model

| member | source | states |
|---|---|---|
| CommonUtils.CleanText | common/utils.py:30-33 | `None` exactly for `None` or the empty string; otherwise the result is the text's words (`text.split()`) joined by single spaces, so it has no blank at either end, no two blanks in a row, and the same non-blank characters in the same order |
| CommonUtils.CollapseShape | common/utils.py:33 | replacing every blank run with a space and stripping gives `" ".join(t.split())`, hence a trimmed, collapsed string that keeps the non-blank characters |
| Text.StripReplaceRunsWords | common/utils.py:33 | for any class `k` and replacement `rep` in it, replacing every run of `k` by `rep` and stripping `k` gives the maximal runs outside `k` joined by `rep`: `re.sub(r"\s+", " ", t).strip()` equals `" ".join(t.split())` for every string |
| Text.StripStripped | scripts/clean_article_data.py:9 | `str.strip()` returns a trimmed slice of its input with only blanks before and after it |
| Text.StrippedUnique | scripts/clean_article_data.py:9 | that characterization has exactly one solution, the stripped string |
| CommonUtils.CleanTextIdempotent | common/utils.py:30-33 | cleaning a non-empty cleaned text again returns it unchanged |
| CommonUtils.CleanTextBlank | common/utils.py:31-33 | whitespace-only text cleans to `""`, not to `None` |
| CommonUtils.SlugWith | common/utils.py:45 | the slug with separator `sep` is exactly the runs of `a-z0-9` of the lower-cased text, in order, joined by one `sep` each; hence only `a-z`, `0-9` and `sep`, no `sep` at either end, no two `sep` in a row |
| CommonUtils.SlugShape | common/utils.py:45 | the substitute-then-strip pipeline equals that join of the slug-character runs, and has that shape |
| CommonUtils.SlugWithIdempotent | common/utils.py:45 | slugging a slug again changes nothing |
| CommonUtils.Slugify | common/utils.py:44-45 | exactly the runs of `a-z0-9` of the lower-cased text joined by single `_` (so `a b` gives `a_b`); only `a-z`, `0-9`, `_`; no leading or trailing `_`; never `__` |
| CommonUtils.SlugifySeparates | common/utils.py:44-45 | a blank between two slug characters becomes exactly one `_`: `slugify("a b")` is `a_b`, not `ab` |
| CommonUtils.SlugifyIdempotent | common/utils.py:44-45 | `slugify(slugify(t)) == slugify(t)` |
| CommonUtils.SlugifyOfSlug | common/utils.py:44-45 | a text made only of slug characters is its own slug |
| CommonUtils.GenerateId | common/utils.py:37-40 | the id starts with `"recipe_" + slugify(brand) + "_"`, ends with `slugify(title)` and is itself slug text, whatever the record kind |
| CommonUtils.IdPrefix | common/utils.py:37-40 | for a brand that is already a slug (such as `"article"`) the id starts with `"recipe_" + brand + "_"` |
| CommonUtils.GenerateIdOf | common/utils.py:37-45 | on raw JSON values: AttributeError unless both are strings (`.lower()` on a non-string); otherwise a slug-text id ending with the title's slug |
| CommonUtils.SafeStrip | common/utils.py:49-50 | strings are stripped, every other value is returned unchanged |
| CommonUtils.SafeStripIdempotent | common/utils.py:49-50 | applying `safe_strip` twice equals applying it once |
| CommonUtils.SafeDict | common/utils.py:54-55 | always a dict; the argument itself exactly when it is a dict, else `{}` |
| CommonUtils.SafeFirst | common/utils.py:59-60 | `lst[0]` for a non-empty list, `None` for everything else |
| RootUtils.Slugify | utils.py:8-10 | exactly the runs of `a-z0-9` of the lower-cased text joined by single `-`; only `a-z`, `0-9`, `-`; no leading or trailing `-`; never `--`; the lower-cased text's slug characters kept in order |
| RootUtils.SlugifyIsSubstitution | utils.py:10 | equals the underscore slug of `common/utils.py` with `_` replaced by `-` |
| RootUtils.SlugifyIdempotent | utils.py:10 | `slugify(slugify(t)) == slugify(t)` |
| RootUtils.CleanText | utils.py:20-23 | `None` for `None` or `""`, otherwise the same result as `common/utils.py`'s copy, that is the words joined by single spaces |
| IndexedDocuments.Make | scripts/vector/indexed_document.py:5-28 | the record validates exactly when every raw value has its declared type (`str`, `Optional[str]`, `Optional[List[str]]`), and then holds the values unchanged |
| Citations.TakeDigits | frontend/src/features/chatBot/utils.ts:2 | the longest run of digits at the front: a prefix of the input, all digits, followed by a non-digit or the end |
| Citations.TokenLength | frontend/src/features/chatBot/utils.ts:2 | a match of `\[(\d+)\]` at the front has length at least 3, opens with `[`, closes with `]`, and holds only digits |
| Citations.Scan | frontend/src/features/chatBot/utils.ts:2-13 | the pieces the global match sees, left to right; every citation piece has one or more digits |
| Citations.RenderConcat | frontend/src/features/chatBot/utils.ts:13 | rendering pieces distributes over concatenation |
| Citations.ScanRender | frontend/src/features/chatBot/utils.ts:2-13 | reading an answer into pieces loses nothing: rendering the pieces gives the answer back |
| Citations.CitedNumbersMember | frontend/src/features/chatBot/utils.ts:2-3 | a number is cited exactly when some citation token's digits have that value |
| Citations.Insert | frontend/src/features/chatBot/utils.ts:4 | inserting into a strictly increasing list keeps it strictly increasing and adds exactly the one number |
| Citations.SortedDistinct | frontend/src/features/chatBot/utils.ts:4 | `Array.from(new Set(xs)).sort((a, b) => a - b)`: strictly increasing, with exactly the numbers of the input |
| Citations.ExtractUsedIndices | frontend/src/features/chatBot/utils.ts:1-5 | exactly the distinct numbers written as `[digits]` in the answer, strictly ascending |
| Citations.IndexMap | frontend/src/features/chatBot/utils.ts:8-11 | the map's keys are the used numbers, and each maps to a position `p` in `1..n` with `used[p-1]` equal to it (the last write wins for a repeated number) |
| Citations.IndexMapDistinct | frontend/src/features/chatBot/utils.ts:9-11 | with no repeated number, `used[i]` maps to `i + 1` |
| Citations.BuildIndexMap | frontend/src/features/chatBot/utils.ts:8-11 | the `forEach` loop fills the map described by `IndexMap` |
| Citations.RemapPieces | frontend/src/features/chatBot/utils.ts:13-16 | the callback is applied to each piece on its own, position for position |
| Citations.RemapAnswer | frontend/src/features/chatBot/utils.ts:7-17 | the loop over the pieces gives the renumbered answer described by `Remapped` |
| Citations.RemapStep | frontend/src/features/chatBot/utils.ts:13-16 | the rendered answer grows by the next piece's rewrite |
| Citations.RemappedShape | frontend/src/features/chatBot/utils.ts:13-16 | literal text is unchanged; an unused citation keeps its digits exactly; a used one gets a number in `1..n` that points back at the original number |
| Citations.RemapDistinct | frontend/src/features/chatBot/utils.ts:9-16 | with repeat-free numbers the citation of `used[i]` becomes `[i + 1]` |
| Citations.RemapOwnCitations | frontend/src/features/chatBot/utils.ts:2-16 | renumbering an answer by its own citations leaves every citation in `1..k`, `k` the number of distinct cited numbers |
| Citations.Lookups | frontend/src/features/chatBot/utils.ts:20 | one looked-up value per used number; a defined one is always an element of `sources` |
| Citations.KeepTruthy | frontend/src/features/chatBot/utils.ts:20 | keeps only defined, truthy values; when every value is defined and truthy, keeps all of them in order |
| Citations.GetUsedSources | frontend/src/features/chatBot/utils.ts:19-21 | every result is a truthy element of `sources`, at most one per used number; when every number has a truthy source, exactly `sources[i-1]` for each, in order |
| Citations.GetUsedSourcesIsRef | frontend/src/features/chatBot/utils.ts:19-21 | map-then-filter equals the one-pass reference: each used number in order contributes its source exactly when it is in `1..len(sources)` and truthy |
| Citations.KeepTruthyAll | frontend/src/features/chatBot/utils.ts:20 | `filter(Boolean)` keeps everything exactly when every value is defined and truthy |
| Citations.GetUsedSourcesDrops | frontend/src/features/chatBot/utils.ts:20 | nothing is dropped exactly when every used number is in `1..len(sources)` and its source is truthy |
| VectorProductCleaner.FeatureLines | scripts/vector/clean_product_data.py:98-102 | at most one line per feature; no line exactly when no feature has text once stripped |
| VectorProductCleaner.FeatureLinesMember | scripts/vector/clean_product_data.py:98-102 | a line is listed exactly when it is `- f` for some feature `f` with text once stripped |
| VectorProductCleaner.BuildContent | scripts/vector/clean_product_data.py:58-163 | the loop-by-loop `build_content` returns exactly the sections in the fixed order, joined by blank lines and stripped, or the placeholder |
| VectorProductCleaner.CollectContentsParts | scripts/vector/clean_product_data.py:94-157 | the features, ingredients and nutrition loops produce exactly the sections of the `contents` dict |
| VectorProductCleaner.NutritionLinesSnoc | scripts/vector/clean_product_data.py:117-151 | one more item appends its lines, or its error ends the loop |
| VectorProductCleaner.NutritionLinesFailFast | scripts/vector/clean_product_data.py:117-151 | once an item raises, the items after it are not looked at |
| VectorProductCleaner.NutritionLinesConcat | scripts/vector/clean_product_data.py:117-151 | the lines of two runs of items are the first run's followed by the second's, unless one raises |
| VectorProductCleaner.CollectNutritionLines | scripts/vector/clean_product_data.py:113-151 | the item loop builds exactly the nutrition lines |
| VectorProductCleaner.CollectItemLines | scripts/vector/clean_product_data.py:118-151 | one item's loop body: its line followed by its named sub-items' lines |
| VectorProductCleaner.CollectSubLines | scripts/vector/clean_product_data.py:136-151 | the sub-item loop keeps one line per named sub-item, in order |
| VectorProductCleaner.EntryLine | scripts/vector/clean_product_data.py:118-151 | the `+=` steps build the entry described by `Entry` |
| VectorProductCleaner.ProcessOne | scripts/vector/clean_product_data.py:28-50 | the loop body: the identifier, the content, then the record |
| VectorProductCleaner.ProcessNeedsDict | scripts/vector/clean_product_data.py:29 | only a dict can be processed |
| VectorProductCleaner.ProcessAll | scripts/vector/clean_product_data.py:26-52 | `main`'s loop keeps the records of the products that process, in input order, and stops only on a non-dict (the handler's `product.get` raises) |
| VectorProductCleaner.MissingKeyFails | scripts/vector/clean_product_data.py:29-52 | a product without `brand` or `title` raises KeyError and is dropped |
| VectorProductCleaner.ProcessSucceeds | scripts/vector/clean_product_data.py:28-50 | a product is processed exactly when `brand` and `title` are strings, its content builds and the record validates |
| VectorProductCleaner.ProcessSteps | scripts/vector/clean_product_data.py:29-48 | with string brand and title, the outcome is the record built from `generate_id(brand, title)` and `build_content(product)` |
| VectorProductCleaner.FinishFields | scripts/vector/clean_product_data.py:32-48 | type `product`, the id, title and brand as given, the first image and first label when they are strings (else `None`), `recipe_tags == []`, no article fields |
| VectorProductCleaner.PrefixLead | scripts/vector/clean_product_data.py:72-155 | a section that opens with a lead string keeps opening with it |
| VectorProductCleaner.SectionLead | scripts/vector/clean_product_data.py:71-91 | every conditional section opens with its label |
| VectorProductCleaner.AllLeadConcat | scripts/vector/clean_product_data.py:64-157 | lists of sections that all open with a label concatenate to one |
| VectorProductCleaner.HeadLead | scripts/vector/clean_product_data.py:71-91 | the seven sections read from the product all open with their labels |
| VectorProductCleaner.ContentsLead | scripts/vector/clean_product_data.py:96-157 | so do the sections of the `contents` dict |
| VectorProductCleaner.NutritionLead | scripts/vector/clean_product_data.py:153-157 | the nutrition section opens with `Nutrition` |
| VectorProductCleaner.NoContentExactly | scripts/vector/clean_product_data.py:159-163 | the content is the placeholder `No content available for this product.` exactly when there is no section at all |
| VectorProductCleaner.UnnamedItemSkipped | scripts/vector/clean_product_data.py:123-134 | an item without a name contributes no line, and its sub-items none either |
| VectorProductCleaner.NamedItemLines | scripts/vector/clean_product_data.py:126-151 | a named item gives its own line followed by one line per named sub-item |
| VectorProductCleaner.SubLinesLength | scripts/vector/clean_product_data.py:137-151 | at most one line per sub-item |
| VectorProductCleaner.EntryShape | scripts/vector/clean_product_data.py:119-151 | an entry has a line exactly when its stripped name is truthy; the line equals `indent- name`, followed by `: amount` exactly when the amount is truthy and then ` (dv% DV)` exactly when the daily value is, in each of the four cases |
| VectorProductCleaner.EntryTextShape | scripts/vector/clean_product_data.py:126-150 | the line equals `indent- name[: amount][ (dv% DV)]`, each optional part present exactly when its value is truthy, in each of the four cases |
| VectorProductCleaner.GrowShape | scripts/vector/clean_product_data.py:127-130 | two conditional `+=` give the head followed by exactly the tails whose conditions hold, in order |
| VectorProductCleaner.NutritionSectionShape | scripts/vector/clean_product_data.py:153-157 | absent without lines; otherwise one section headed `Nutrition (serving):` or `Nutrition:` and ending with the last line |
| LegacyProductCleaner.DescLineCases | scripts/clean_product_data.py:12-27 | the description line is the description, `desc (Size: size)`, `Size: size` or empty, by which of the two are truthy; empty exactly when neither is |
| LegacyProductCleaner.FeatureLines | scripts/clean_product_data.py:36-40 | at most one line per feature; none exactly when no feature is a non-blank string |
| LegacyProductCleaner.FeatureLinesMember | scripts/clean_product_data.py:36-40 | a line is listed exactly when it is `- f` for some non-blank string feature `f` |
| LegacyProductCleaner.FallbackOnlyWhenEmpty | scripts/clean_product_data.py:97-103 | the title fallback is used only when no section was built, and adds at most one part |
| LegacyProductCleaner.FallbackShape | scripts/clean_product_data.py:98-105 | no fallback exactly without a title; with a brand it is exactly `#fallback title by brand`; without one the title alone when it is a string, and a TypeError from the join otherwise |
| LegacyProductCleaner.NoPartsNoTitle | scripts/clean_product_data.py:98-105 | no section and no title give the empty content |
| LegacyProductCleaner.ItemsOnlyFromList | scripts/clean_product_data.py:52-95 | nutrition items that are not a list give no nutrition section |
| LegacyProductCleaner.SubItemsOnlyFromList | scripts/clean_product_data.py:75-76 | a named item whose sub-items are not a list gives its own line only |
| LegacyProductCleaner.NutritionLinesConcat | scripts/clean_product_data.py:56-91 | the lines of two runs of items are the first run's followed by the second's |
| LegacyProductCleaner.UnnamedItemSkipped | scripts/clean_product_data.py:65-66 | an item without a name contributes no line, and neither do its sub-items |
| LegacyProductCleaner.BuildContent | scripts/clean_product_data.py:8-105 | the step-by-step `build_content` returns the sections joined by blank lines and stripped, with the title fallback |
| LegacyProductCleaner.BuildDescLine | scripts/clean_product_data.py:15-24 | the `+=` steps build the description line |
| LegacyProductCleaner.BuildFallback | scripts/clean_product_data.py:98-103 | the fallback branch builds the fallback part |
| LegacyProductCleaner.CollectContentsParts | scripts/clean_product_data.py:30-95 | the features, ingredients and nutrition steps build the contents sections |
| LegacyProductCleaner.CollectFeatureLines | scripts/clean_product_data.py:36-40 | the comprehension's loop keeps the feature lines |
| LegacyProductCleaner.CollectNutritionLines | scripts/clean_product_data.py:55-91 | the item loop builds the nutrition lines |
| LegacyProductCleaner.CollectItemLines | scripts/clean_product_data.py:57-91 | one item's loop body: its line followed by its named sub-items' lines |
| LegacyProductCleaner.ProcessOne | scripts/clean_product_data.py:118-140 | the loop body: identifier, content, then the record |
| LegacyProductCleaner.ProcessNeedsDict | scripts/clean_product_data.py:119 | only a dict can be processed |
| LegacyProductCleaner.ProcessAll | scripts/clean_product_data.py:116-142 | `main`'s loop keeps the records of the products that process, in order, and stops only on a non-dict (the handler's `product.get` raises) |
| LegacyProductCleaner.ProcessSteps | scripts/clean_product_data.py:119-138 | with string brand and title, the record is built from `generate_id(brand, title)` and `build_content(product)` |
| LegacyProductCleaner.ProcessImageLabel | scripts/clean_product_data.py:122-138 | type `product`, the id, the content; the first image and first label when truthy, else `None`; no article fields, `recipe_tags == []` |
| VectorRecipeCleaner.Then | scripts/vector/clean_recipe_data.py:18-28 | one conditional `parts.append`: an absent line leaves the parts alone, a present one is appended last, an exception stops the build; the parts only grow |
| VectorRecipeCleaner.DescriptionLine | scripts/vector/clean_recipe_data.py:18-19 | a description line exactly when the description is truthy, reading `Description: …` |
| VectorRecipeCleaner.JoinedLine | scripts/vector/clean_recipe_data.py:20-25 | no line exactly when the value is falsy; a non-empty list of strings gives the caption and the joined strings; a list holding a non-string, or a truthy scalar, raises TypeError |
| VectorRecipeCleaner.StatsLine | scripts/vector/clean_recipe_data.py:26-28 | no line exactly when the stats are falsy; `.get` on a truthy non-dict raises AttributeError; a dict gives `Stats: Prep time: …, Cook time: …, Total time: …, Servings: …` |
| VectorRecipeCleaner.ContentSteps | scripts/vector/clean_recipe_data.py:17-29 | the appends performed one after another give the content of `build_content` |
| VectorRecipeCleaner.BuildContent | scripts/vector/clean_recipe_data.py:9-29 | the step-by-step `build_content` returns the parts joined by newlines, or the exception raised building them |
| VectorRecipeCleaner.AppendStats | scripts/vector/clean_recipe_data.py:26-28 | the stats step appends the stats line when there is one |
| VectorRecipeCleaner.AppendJoined | scripts/vector/clean_recipe_data.py:20-25 | a join step appends its line when there is one |
| VectorRecipeCleaner.PartsOrder | scripts/vector/clean_recipe_data.py:17-28 | the parts are the title line, then description, ingredients, instructions, tags and stats lines, each only when present, in that order |
| VectorRecipeCleaner.PartsSucceed | scripts/vector/clean_recipe_data.py:20-28 | the build succeeds exactly when none of the joins and the stats line raises |
| VectorRecipeCleaner.ContentStartsWithTitle | scripts/vector/clean_recipe_data.py:17-29 | the content begins with `Recipe: title`, followed by a newline when anything else is present |
| VectorRecipeCleaner.AssembleHead | scripts/vector/clean_recipe_data.py:17 | the title line stays first whatever follows it |
| VectorRecipeCleaner.SkillIgnored | scripts/vector/clean_recipe_data.py:27 | the skill level never changes the stats line |
| VectorRecipeCleaner.MissingStatEmpty | scripts/vector/clean_recipe_data.py:27 | a missing stats key is rendered as empty text |
| VectorRecipeCleaner.ProcessOne | scripts/vector/clean_recipe_data.py:42-70 | one pass of the loop body: identifier, content, record |
| VectorRecipeCleaner.ProcessNeedsDict | scripts/vector/clean_recipe_data.py:43 | only a dict can be processed |
| VectorRecipeCleaner.ProcessAll | scripts/vector/clean_recipe_data.py:40-72 | `main`'s loop keeps the records of the recipes that process, in order, and stops only on a non-dict (the handler's `recipe.get` raises) |
| VectorRecipeCleaner.MissingKeyFails | scripts/vector/clean_recipe_data.py:43-61 | a recipe without `brand`, `title` or `url` raises and is dropped |
| VectorRecipeCleaner.FinishNeedsUrl | scripts/vector/clean_recipe_data.py:61 | `recipe["url"]` raises when the key is missing |
| VectorRecipeCleaner.ProcessSteps | scripts/vector/clean_recipe_data.py:43-69 | with string brand and title, the record is finished from `generate_id(brand, title)` and `build_content` of the recipe's fields |
| VectorRecipeCleaner.FinishFields | scripts/vector/clean_recipe_data.py:53-69 | type `recipe`, the id, title, brand and content; the tags as `recipe_tags` (`[]` by default); no image without images; `url` as source page; every product and article field `None` |
| VectorRecipeCleaner.ProcessTags | scripts/vector/clean_recipe_data.py:43-69 | the record of a processed recipe: `generate_id(brand, title)`, its content, its tags (`[]` when it has none), image and `url` |
| VectorArticleCleaner.BuildContent | scripts/vector/clean_article_data.py:54-72 | the step-by-step `build_content` returns the present parts joined by blank lines and stripped |
| VectorArticleCleaner.TitleLineSolid | scripts/vector/clean_article_data.py:65-66 | the bold title line of a stripped title has no blank at either end |
| VectorArticleCleaner.ThemeLineSolid | scripts/vector/clean_article_data.py:67-68 | so has the theme line |
| VectorArticleCleaner.ContentFails | scripts/vector/clean_article_data.py:63-72 | `build_content` raises exactly when the body is truthy but not a string, and then with TypeError |
| VectorArticleCleaner.ContentExactly | scripts/vector/clean_article_data.py:59-72 | otherwise the content is `**title**`, `Theme: theme` and the stripped body, each only when truthy, joined by blank lines, with nothing left to strip |
| VectorArticleCleaner.EmptyContent | scripts/vector/clean_article_data.py:61-72 | title, theme and body all empty after stripping give the empty content |
| VectorArticleCleaner.ContentStartsWithTitle | scripts/vector/clean_article_data.py:65-72 | with a title the content opens with it in bold |
| VectorArticleCleaner.ContentEndsWithBody | scripts/vector/clean_article_data.py:69-72 | with a body the content closes with the stripped body |
| VectorArticleCleaner.ProcessOne | scripts/vector/clean_article_data.py:21-46 | one pass of the loop body: the skip test, the identifier, the content, the record |
| VectorArticleCleaner.ProcessNeedsDict | scripts/vector/clean_article_data.py:22 | only a dict can be processed or skipped |
| VectorArticleCleaner.ProcessAll | scripts/vector/clean_article_data.py:19-48 | `main`'s loop keeps the records of the articles that process, in order, passes over the skipped ones and stops only on a non-dict |
| VectorArticleCleaner.SkipExactly | scripts/vector/clean_article_data.py:22-23 | an article is skipped exactly when its `content` is falsy |
| VectorArticleCleaner.FinishNeverSkips | scripts/vector/clean_article_data.py:25-46 | past the skip test an article is either saved or fails |
| VectorArticleCleaner.MissingTitleFails | scripts/vector/clean_article_data.py:25 | an article with content but no `title` raises KeyError |
| VectorArticleCleaner.ArticleIdPrefix | scripts/vector/clean_article_data.py:25 | every article identifier begins `recipe_article_` |
| VectorArticleCleaner.ProcessSteps | scripts/vector/clean_article_data.py:22-44 | an article with content and a string title is finished from `generate_id("article", title)` and its `build_content` |
| VectorArticleCleaner.FinishFields | scripts/vector/clean_article_data.py:28-44 | type `article`, the id, title and content; no brand or image; `recipe_tags == []`; theme, url and both dates from the article; every product field `None` |
| VectorArticleCleaner.ProcessFields | scripts/vector/clean_article_data.py:25-44 | a saved article's record: its identifier from the title, its content, its own theme and url |
| LegacyArticleCleaner.Content | scripts/clean_article_data.py:8-9 | `text.strip()` succeeds exactly on a string, else AttributeError; the result is a slice of the text with only blanks before and after it and no blank at either end |
| LegacyArticleCleaner.ProcessOne | scripts/clean_article_data.py:22-47 | one pass of the loop body: the skip test, the identifier, the content, the record |
| LegacyArticleCleaner.ProcessNeedsDict | scripts/clean_article_data.py:23 | only a dict can be processed or skipped |
| LegacyArticleCleaner.ProcessAll | scripts/clean_article_data.py:20-49 | `main`'s loop keeps the records of the articles that process, in order, passes over the skipped ones and stops only on a non-dict |
| LegacyArticleCleaner.FinishNeverSkips | scripts/clean_article_data.py:26-47 | past the skip test an article is either saved or fails |
| LegacyArticleCleaner.SkipExactly | scripts/clean_article_data.py:23-24 | an article is skipped exactly when its `content` is falsy |
| LegacyArticleCleaner.NonStringContentFails | scripts/clean_article_data.py:27 | truthy content that is not a string raises and the article is dropped |
| LegacyArticleCleaner.ProcessSteps | scripts/clean_article_data.py:23-45 | an article with content and a string title is finished from `generate_id("article", title)` and the stripped content |
| LegacyArticleCleaner.FinishFields | scripts/clean_article_data.py:29-45 | type `article`, the id, title and content; no brand, image or theme; `recipe_tags == []`; category, url and both dates from the article; every product field `None` |
| LegacyArticleCleaner.ProcessFields | scripts/clean_article_data.py:26-45 | a saved article: identifier from the title beginning `recipe_article_`, content the stripped `content`, its own category |
| LegacyArticleCleaner.StripBlank | scripts/clean_article_data.py:9 | stripping text made only of blanks leaves nothing |
| LegacyArticleCleaner.BlankContentKept | scripts/clean_article_data.py:23-27 | content of blanks only passes the skip test, so such an article is saved with empty content |
| GraphCleaner.ProductOf | scripts/graph/clean_graph_data.py:32-41 | a product node carries the loop's brand and the item's string `title` as its name |
| GraphCleaner.CleanGraphData | scripts/graph/clean_graph_data.py:17-54 | the loop growing the brand dict and the product and edge lists computes the graph of the items, or the first exception |
| GraphCleaner.FailureSticks | scripts/graph/clean_graph_data.py:21-46 | once an item has raised, no later item changes the outcome |
| GraphCleaner.CleanFails | scripts/graph/clean_graph_data.py:21-46 | the run fails exactly when some item is not a dict, has a truthy non-string brand, or builds an invalid product node |
| GraphCleaner.MissingTitleAborts | scripts/graph/clean_graph_data.py:32-33 | a branded item without a string `title` aborts the whole run |
| GraphCleaner.Kept | scripts/graph/clean_graph_data.py:22-25 | the items that become products are the ones with a truthy brand, at most all of them |
| GraphCleaner.Dedup | scripts/graph/clean_graph_data.py:28-29 | the brand dict's keys: each value once, every value present, nothing else |
| GraphCleaner.DedupOrder | scripts/graph/clean_graph_data.py:28-52 | the dict keeps its keys in order of first insertion |
| GraphCleaner.StepFacts | scripts/graph/clean_graph_data.py:22-46 | one pass either skips a falsy-brand item unchanged or appends its product, its edge and its brand if new |
| GraphCleaner.ProductsShape | scripts/graph/clean_graph_data.py:21-46 | one product node and one edge per kept item, in order, each edge going from the product's brand to its name with type `HAS_PRODUCT` |
| GraphCleaner.BrandsShape | scripts/graph/clean_graph_data.py:28-52 | the brand nodes are the distinct product brands in order of first appearance, with no url or image |
| GraphCleaner.GraphConsistent | scripts/graph/clean_graph_data.py:17-54 | as many edges as products; distinct brand names; every edge leaves a brand node and reaches its product; every brand node has a product |
| GraphCleaner.SkipFalsyBrand | scripts/graph/clean_graph_data.py:23-25 | an item with a falsy brand adds nothing |
| GraphCleaner.ProductFields | scripts/graph/clean_graph_data.py:33-40 | name and brand; the first image and first label when those lists are non-empty, `None` when falsy; url, description, size and line from the item |
| GraphEditing.NodeResponse | backend/api/graph_editing.py:102-116 | `Node created.` exactly when one node was created, `Node updated.` exactly when none was but properties were set, the no-change message otherwise; the stats report nodes created and properties set only |
| GraphEditing.EdgeResponse | backend/api/graph_editing.py:120-129 | `Relationship created.` exactly when one relationship was created, the no-change message otherwise; the stats report relationships created only |
| GraphEditing.RunQuery | backend/api/graph_editing.py:20-98 | the query is sent; a database failure becomes a 500 whose detail is `Failed to add …: ` and the message; a summary becomes the built response |
| GraphEditing.AddBrand | backend/api/graph_editing.py:10-34 | no query exactly when the stripped name is empty, then a 400 `Brand name is required`; otherwise the brand MERGE is sent and the reply is a 500 exactly when it fails, else the node response |
| GraphEditing.AddProduct | backend/api/graph_editing.py:37-65 | the same for products, with every product field sent as a parameter |
| GraphEditing.AddEdge | backend/api/graph_editing.py:68-98 | no query exactly when either stripped name is empty, then a 400; otherwise the MATCH/MERGE of `HAS_PRODUCT` is sent and the reply is a 500 exactly when it fails, else the edge response |
| GraphEditing.EdgeIgnoresKind | backend/api/graph_editing.py:80-89 | the edge's `type` field makes no difference: the relationship is always `HAS_PRODUCT` |
| GraphEditing.BlankNameNoQuery | backend/api/graph_editing.py:15-18 | a blank brand name is refused before any query, whatever the database would say |
| ChatApi.AnswerText | backend/api/chat.py:27 | `result.get("answer", "").strip()` yields text exactly when the result is a dict whose answer (default `""`) is a string, and then the stripped answer |
| ChatApi.ChatEndpoint | backend/api/chat.py:13-38 | a 400 `Question cannot be empty` exactly for a blank question; the service is asked with the stripped question; when it returns a result whose answer has text, the reply is the dumped `ChatResponse` if the result passes that model (and the dump passes it too), and otherwise the uncaught response-validation error, which carries no `RAG failed: ` prefix; every other reply a 500 beginning `RAG failed: ` |
| ChatApi.BlankQuestionRefused | backend/api/chat.py:19-23 | a blank question is refused before the service is asked |
| ChatApi.ServiceGetsStrippedQuestion | backend/api/chat.py:19-25 | the service sees only the stripped question |
| ChatApi.ServiceFailure | backend/api/chat.py:34-38 | a service failure is a 500 with `RAG failed: ` and its message |
| ChatApi.BlankAnswerIsServerError | backend/api/chat.py:28-38 | the 422 for a blank answer is caught by the handler and turned into a 500 whose detail is `RAG failed: 422: No answer generated…` |
| ChatApi.ResultSent | backend/api/chat.py:13-33 | a valid result whose answer has text is sent as its dump, its answer unchanged and not stripped |
| ChatApi.InvalidResultEscapes | backend/api/chat.py:13-33 | a result with a non-blank answer that fails `ChatResponse` (no `sources`, say) is not turned into a `RAG failed: ` 500: the error is raised after the endpoint has returned, outside its `try` |
| ChatApi.ResponseBody | backend/models/response_models.py:5-22 | the dumped reply has exactly `answer` and `sources`, in that order; the answer is the result's; there is one source per item and each keeps the item's `title`, `url`, `image` and `content` (a missing one as `None`); a valid result dumps to a valid reply |
| ChatApi.NullTitleInvalid | backend/models/response_models.py:10 | a source whose title is `None` or missing fails `Source`, and its whole response fails `ChatResponse` |
| ChatApi.ResponseBodyIdempotent | backend/models/response_models.py:5-22 | dumping a dumped reply changes nothing |
| ChatApi.ExtraKeysDropped | backend/models/response_models.py:16-22 | no key of the result other than `answer` and `sources` reaches the reply |
| HybridRag.CountPositive | backend/services/hybrid_rag_service.py:55 | `xs.count(x)` is positive exactly when `x` is in `xs` |
| HybridRag.MostCommonOf | backend/services/hybrid_rag_service.py:55 | `max(set(xs), key=xs.count)` is a candidate counted at least as often as every other |
| HybridRag.TruthyValuesMember | backend/services/hybrid_rag_service.py:54-59 | a value is collected exactly when some document has it, truthy, under the key |
| HybridRag.MostCommonField | backend/services/hybrid_rag_service.py:52-60 | `None` exactly when no document has a truthy value under the key; otherwise a truthy value some document has, occurring at least as often as any other |
| HybridRag.LookupChoice | backend/services/hybrid_rag_service.py:25-35 | the graph is searched by the most frequent brand when any document has one, else by the most frequent name when some has one, else not at all |
| HybridRag.ChooseLookupCases | backend/services/hybrid_rag_service.py:29-35 | the `if brand / elif name / else` choice over two extracted values |
| HybridRag.GraphProducts | backend/services/hybrid_rag_service.py:29-35 | no lookup gives no product; by brand, the brand query's list; by name, the one product when truthy, else none |
| HybridRag.Matches | backend/services/hybrid_rag_service.py:110 | at most one per word; positive exactly when some word occurs in the text; all exactly when every word does |
| HybridRag.Insert | backend/services/hybrid_rag_service.py:116 | one insertion step of the sort adds exactly the new element |
| HybridRag.InsertDescending | backend/services/hybrid_rag_service.py:116 | inserting into a descending list keeps it descending |
| HybridRag.InsertWithKey | backend/services/hybrid_rag_service.py:116 | an inserted element goes before the others of its key, keeping their order |
| HybridRag.SortDescending | backend/services/hybrid_rag_service.py:116 | `sorted(…, reverse=True)` is a permutation, by non-increasing key, stable within each key |
| HybridRag.StableDescendingUnique | backend/services/hybrid_rag_service.py:116 | a stable descending order is unique, so these properties determine the sort |
| HybridRag.WithKeyHead | backend/services/hybrid_rag_service.py:116 | the head of a list leads the elements of its key |
| HybridRag.WithKeyTop | backend/services/hybrid_rag_service.py:116 | a descending list holding a key `k` starts with a key at least `k` |
| HybridRag.WithKeyPositive | backend/services/hybrid_rag_service.py:113 | filtering on a positive score leaves the positive-score groups as they were |
| HybridRag.RankPositiveSpec | backend/services/hybrid_rag_service.py:113-116 | keep the positive-key elements, descending, stable |
| HybridRag.RerankSpec | backend/services/hybrid_rag_service.py:89-116 | the products kept are exactly those sharing a word with the question; in order of non-increasing score; equal scores keep their input order |
| HybridRag.ScoreSpec | backend/services/hybrid_rag_service.py:101-110 | a product scores above zero exactly when a word of the lower-cased question occurs in its lower-cased name, description and label; the score is at most the number of words |
| HybridRag.BuildGraphContext | backend/services/hybrid_rag_service.py:62-79 | `build_graph_context`'s loop builds one block per product, joined by blank lines and stripped, `""` without products |
| HybridRag.LinesBlock | backend/services/hybrid_rag_service.py:69-77 | a block is the six lines in order; stripping loses only the blanks at the end of the URL line; the block opens with the first five lines and `URL:` and has no blank at either end |
| HybridRag.BlockShape | backend/services/hybrid_rag_service.py:69-77 | the same for one product's `p.get(key, '')` fields |
| HybridRag.GraphContextShape | backend/services/hybrid_rag_service.py:64-79 | the graph context is empty exactly without products, and otherwise is the blocks joined by blank lines with nothing left to strip |
| HybridRag.MergeContexts | backend/services/hybrid_rag_service.py:81-87 | opens with the vector context and closes with the graph context; either alone when the other is empty; both separated by the `[Graph Knowledge from Neo4j]` header |
| HybridRag.GraphPartEmpty | backend/services/hybrid_rag_service.py:37-42 | the graph part is rendered from the reranked products, and is empty exactly when no product scores |
| HybridRag.AnswerQuestion | backend/services/hybrid_rag_service.py:11-50 | succeeds exactly when the sources can be prepared, and then returns the vector service's sources |
| HybridRag.HybridAnswer | backend/services/hybrid_rag_service.py:19-50 | the answer is the model's reply to the merged context, which begins with the vector context; without graph knowledge the service answers exactly as the vector service |
| RagService.ContentIndices | backend/services/rag_service.py:60-64 | the positions of documents with content, each holding content, in increasing order |
| RagService.ContentIndicesComplete | backend/services/rag_service.py:62-63 | every document with content is listed |
| RagService.BuildContext | backend/services/rag_service.py:56-64 | the context is empty exactly when no document has content |
| RagService.EntriesSpec | backend/services/rag_service.py:60-64 | an entry is listed exactly when it is `[i+1] content` for a document `i` with content: numbers follow positions in the whole result and skip the documents left out |
| RagService.NoDocsNoContext | backend/services/rag_service.py:60-64 | no document gives the empty context |
| RagService.SourceOf | backend/services/rag_service.py:71-76 | a source is built exactly from a dict holding all four keys, and holds their values |
| RagService.PrepareSources | backend/services/rag_service.py:66-78 | succeeds exactly when every document gives a source, and then one source per document in order; otherwise KeyError or TypeError |
| RagService.CitationsAligned | backend/services/rag_service.py:56-78 | the j-th context entry is numbered k and shows the content of source k - 1, which is document k - 1's content and is truthy |
| RagService.EntryAt | backend/services/rag_service.py:60-64 | the j-th entry is the one built from the j-th document with content |
| RagService.Messages | backend/services/rag_service.py:38-43 | two messages, the system prompt then the user message `question`, the separator, the context |
| RagService.MessagesRecover | backend/services/rag_service.py:38 | question and context can be read back out of the user message |
| RagService.AnswerQuestion | backend/services/rag_service.py:10-26 | succeeds exactly when the sources can be prepared; the answer is the model's reply to the question and the numbered context; the sources are the prepared ones |
| RagService.AnswerCitesSources | backend/services/rag_service.py:18-26 | in an answered question every numbered entry the model saw shows the content of the source under that number |
| VectorRagService.GetAnswer | backend/services/base_rag_service.py:19-40 | the model's reply to the question and context under the base prompt, stripped: a slice of the reply with only blanks before and after it and no blank at either end |
| VectorRagService.AnswerQuestion | backend/services/vector_rag_service.py:11-27 | succeeds exactly when the sources can be prepared; the answer is the stripped reply to the numbered context |
| VectorRagService.SameSourcesAsRagService | backend/services/vector_rag_service.py:11-58 | this service and `RAGService` fail on the same searches and list the same sources |
| BaseCrawler.StrippedText | scraper/crawlers/base_crawler.py:96-98 | the stripped fragments joined: no blank at either end, empty exactly when every fragment is blank |
| BaseCrawler.GetText | scraper/crawlers/base_crawler.py:98 | `get_text(strip=True)` has no blank at either end |
| BaseCrawler.GetTextEmpty | scraper/crawlers/base_crawler.py:98 | an element's text is empty exactly when all its fragments are blank |
| BaseCrawler.GetTextStripped | scraper/crawlers/base_crawler.py:98 | stripping an element's text again changes nothing |
| BaseCrawler.Texts | scraper/crawlers/base_crawler.py:98 | one text per matched element, in document order |
| BaseCrawler.TextOf | scraper/crawlers/base_crawler.py:96-98 | `_text` is `None` exactly when the selector matches nothing, else the element's stripped text |
| BaseCrawler.IndexOfChar | scraper/crawlers/base_crawler.py:65 | the first position of a character, or the length when absent |
| BaseCrawler.Authority | scraper/crawlers/base_crawler.py:65 | the longest prefix holding no `/`, `?` or `#` |
| BaseCrawler.AfterScheme | scraper/crawlers/base_crawler.py:65 | what follows the scheme is no longer than the reference |
| BaseCrawler.Netloc | scraper/crawlers/base_crawler.py:65-66 | `urlparse(url).netloc` holds no `/`, `?` or `#` |
| BaseCrawler.AuthorityOfHost | scraper/crawlers/base_crawler.py:65 | the authority of a host followed by a path is the host |
| BaseCrawler.AfterHttps | scraper/crawlers/base_crawler.py:65 | after the scheme of an `https` URL comes what follows `https:` |
| BaseCrawler.NetlocOfHttps | scraper/crawlers/base_crawler.py:65 | the host of `https://host/path` is `host` |
| BaseCrawler.RelativeNotInternal | scraper/crawlers/base_crawler.py:64-66 | a host-relative `/path` has no host and is never internal |
| BaseCrawler.SuffixHostsPass | scraper/crawlers/base_crawler.py:64-66 | any host ending with `madewithnestle.ca` passes, even one that only ends with the same letters |
| BaseCrawler.Resolve | scraper/crawlers/base_crawler.py:64-66 | `urljoin` with the site's origin keeps an absolute URL and prefixes a host-relative path with the origin |
| BaseCrawler.HostInDomain | scraper/crawlers/base_crawler.py:66 | the site's own host is in the domain |
| BaseCrawler.ResolvedPathInternal | scraper/crawlers/base_crawler.py:64-66 | a site path joined to the origin is internal |
| BaseCrawler.IsRedirectToExternal | scraper/crawlers/base_crawler.py:69-78 | a redirect is reported only for a page that actually landed |
| BaseCrawler.IsBrokenLink | scraper/crawlers/base_crawler.py:81-88 | a link is sound only when it responded with a status below 400 |
| BaseCrawler.ProbeFailures | scraper/crawlers/base_crawler.py:77-88 | a failed probe counts as not redirected but as broken; a missing response as broken |
| BaseCrawler.RedirectIffExternal | scraper/crawlers/base_crawler.py:73-76 | a landing is a redirect exactly when its URL is not internal |
| BaseCrawler.Clicks | scraper/crawlers/base_crawler.py:43-53 | the pagination loop clicks while the `a[rel="next"]` control shows and stops at the first wait that finds none |
| BaseCrawler.Load | scraper/crawlers/base_crawler.py:28-61 | `RuntimeError` exactly without a browser; a page that cannot be opened reads as `""` |
| BaseCrawler.CookieBannerIgnored | scraper/crawlers/base_crawler.py:36-40 | whether the cookie banner shows makes no difference to the page read |
| BaseCrawler.PaginationClicksUntilAbsent | scraper/crawlers/base_crawler.py:43-58 | with pagination the HTML is the page after exactly as many clicks as the control showed in a row |
| BaseCrawler.Crawler.constructor | scraper/crawlers/base_crawler.py:11-14 | the headless flag as given, no browser and no context |
| BaseCrawler.Crawler.InitBrowser | scraper/crawlers/base_crawler.py:17-25 | afterwards both the browser and the context are set; the headless flag never changes |
| BaseCrawler.Crawler.LoadPageContent | scraper/crawlers/base_crawler.py:28-61 | the page read from the crawler's current state, as `Load` describes |
| ProductCrawler.AppendNew | scraper/crawlers/product_crawler.py:158-204 | the `if x not in list: append` loops keep the list as a prefix, add exactly the missing values, each once and none already there |
| ProductCrawler.AppendNewOrder | scraper/crawlers/product_crawler.py:158-204 | what is added comes in the order of first occurrence |
| ProductCrawler.DetailUrl | scraper/crawlers/product_crawler.py:124-126 | the detail URL starts with `http`; it is the `href` itself exactly when that starts with `http`, otherwise the origin is put in front |
| ProductCrawler.DetailUrlIdempotent | scraper/crawlers/product_crawler.py:125-126 | fixing a detail URL twice changes nothing more |
| ProductCrawler.ImageUrls | scraper/crawlers/product_crawler.py:151-157 | at most one URL per carousel image |
| ProductCrawler.ImageUrlsMember | scraper/crawlers/product_crawler.py:151-157 | a URL is listed exactly when it is a non-empty `src` joined to the origin |
| ProductCrawler.CollectImages | scraper/crawlers/product_crawler.py:150-159 | the carousel loop collects the joined sources without repeats |
| ProductCrawler.ImagesSpec | scraper/crawlers/product_crawler.py:150-159 | the images are distinct, a URL is among them exactly when some non-empty `src` resolves to it, and they come in order of first appearance among the resolved URLs |
| ProductCrawler.MergeLabels | scraper/crawlers/product_crawler.py:194-204 | the detail labels appended to the card labels when new |
| ProductCrawler.LabelsSpec | scraper/crawlers/product_crawler.py:194-204 | the card's labels first, repeats included; then only detail labels the list lacked; a label is present exactly when the card or detail page has it |
| ProductCrawler.KeywordFrom | scraper/crawlers/product_crawler.py:176-191 | a keyword the URL contains, the first from the given position; none exactly when the URL contains none of them |
| ProductCrawler.FindKeyword | scraper/crawlers/product_crawler.py:178-191 | the keyword loop stops at the first match |
| ProductCrawler.ProductLine | scraper/crawlers/product_crawler.py:162-191 | the detail subtitle's text when the detail page has one, else the card subtitle's |
| ProductCrawler.ProductLineFallback | scraper/crawlers/product_crawler.py:176-191 | without subtitle text, the first URL keyword; with none it stays `None` without any subtitle element and `""` with a blank one |
| ProductCrawler.KeywordOrder | scraper/crawlers/product_crawler.py:178-191 | the keyword chosen is the earliest in the list the URL contains |
| ProductCrawler.Attach | scraper/crawlers/product_crawler.py:236-242 | a sub-item goes into the last top-level item and nothing else changes |
| ProductCrawler.NutritionItems | scraper/crawlers/product_crawler.py:219-242 | every item built has a sub-item list |
| ProductCrawler.BuildNutritionItems | scraper/crawlers/product_crawler.py:215-242 | the row loop, with `parent` being the last top-level item |
| ProductCrawler.SubItems | scraper/crawlers/product_crawler.py:236-242 | at most one sub-item per row |
| ProductCrawler.OrphanRowsDropped | scraper/crawlers/product_crawler.py:225-236 | rows before the first top-level row are dropped |
| ProductCrawler.NutritionGroup | scraper/crawlers/product_crawler.py:227-242 | a top-level row and the rows after it make one item whose sub-items are the labelled rows, in order |
| ProductCrawler.NutritionGroupStart | scraper/crawlers/product_crawler.py:227-235 | a top-level row starts a new group |
| ProductCrawler.NutritionGroupStep | scraper/crawlers/product_crawler.py:225-242 | a further labelled depth-1 row joins the group, an unlabelled one is dropped |
| ProductCrawler.NutritionOf | scraper/crawlers/product_crawler.py:244-265 | no nutrition exactly when no item was built, otherwise the items and the serving text |
| ProductCrawler.NoTopRowNoNutrition | scraper/crawlers/product_crawler.py:219-265 | a page without labelled top-level rows has no nutrition |
| ProductCrawler.IngredientsOf | scraper/crawlers/product_crawler.py:246-251 | ingredients exactly when the section and its `<p>` are there |
| ProductCrawler.ParseProduct | scraper/crawlers/product_crawler.py:119-289 | a product exactly when the card has a link and the brand name and category are strings; its url is the detail URL, with brand and category as given |
| ProductCrawler.ProductFields | scraper/crawlers/product_crawler.py:129-283 | the name is the detail heading, else the link text, stripped; a description exactly when one of the two paragraphs exists; nutrition exactly when items were built; the timestamp as given |
| ProductCrawler.FindProductLine | scraper/crawlers/product_crawler.py:162-191 | the product-line code with its keyword loop gives `ProductLine` |
| ProductCrawler.FindNutrition | scraper/crawlers/product_crawler.py:215-244 | the nutrition code with its row loop gives `NutritionOf` |
| ProductCrawler.ParseProductPage | scraper/crawlers/product_crawler.py:119-289 | the body of `parse_product_page`, with its loops, gives `ParseProduct` |
| ProductCrawler.CardProducts | scraper/crawlers/product_crawler.py:84-93 | at most one product per card |
| ProductCrawler.CardProductsConcat | scraper/crawlers/product_crawler.py:89-93 | a card that gives nothing is dropped without affecting the others |
| ProductCrawler.CardProductsCount | scraper/crawlers/product_crawler.py:84-124 | with string brand name and category, exactly one product per card with a link |
| ProductCrawler.LinkedCards | scraper/crawlers/product_crawler.py:123 | the cards with a link, at most all of them |
| ProductCrawler.CardProductsSnoc | scraper/crawlers/product_crawler.py:84-93 | one more card appends its product, if any |
| ProductCrawler.ParseCards | scraper/crawlers/product_crawler.py:84-94 | the cards' products in card order (gathered concurrently in the source) |
| ProductCrawler.CrawlUrls | scraper/crawlers/product_crawler.py:72-95 | a brand's products: its listing pages in order, each page's products in order |
| ProductCrawler.SpecialUrls | scraper/crawlers/product_crawler.py:27-41 | each special brand has at least one listing page |
| ProductCrawler.SpecialLookup | scraper/crawlers/product_crawler.py:316-317 | the membership test raises exactly on an unhashable name; a hit is a special brand's pages |
| ProductCrawler.TriageSpec | scraper/crawlers/product_crawler.py:292-319 | external exactly when off the domain or redirecting off it; broken exactly when it passes those but is broken; skipped brands recorded as title, url, category; a crawled brand uses its special pages, else its own URL |
| ProductCrawler.ExternalNeedsNoProbe | scraper/crawlers/product_crawler.py:297-302 | an external URL is recorded without opening it |
| ProductCrawler.SpecialBrandStillClassified | scraper/crawlers/product_crawler.py:297-317 | a special brand is crawled only when its URL passes all three tests first |
| ProductCrawler.BrandStepShift | scraper/crawlers/product_crawler.py:62-95 | a brand adds to the progress exactly what it adds to a fresh one |
| ProductCrawler.StepOk | scraper/crawlers/product_crawler.py:62-95 | a brand that raises nothing adds its products or its side-list entry and nothing else |
| ProductCrawler.CrawlBrandsSnoc | scraper/crawlers/product_crawler.py:62-95 | the loop over one more brand is the earlier loop then that brand |
| ProductCrawler.CrawlStopsAtFailure | scraper/crawlers/product_crawler.py:62-67 | the first brand that raises ends the loop; later brands change nothing |
| ProductCrawler.Crawler.constructor | scraper/crawlers/product_crawler.py:43-47 | both side lists empty |
| ProductCrawler.Crawler.ClassifyBrand | scraper/crawlers/product_crawler.py:292-319 | the verdict of `Classify`; the external list grows by the entry exactly on an external verdict, the broken list on a broken one |
| ProductCrawler.Crawler.TriageBrand | scraper/crawlers/product_crawler.py:297-319 | the verdict of `Triage`, its conditions checked in the source's order; exactly one side-list entry on an external or broken verdict, none otherwise |
| ProductCrawler.Crawler.CrawlBrand | scraper/crawlers/product_crawler.py:62-95 | one brand's products, its side-list entries, or the exception that ends the loop |
| ProductCrawler.Crawler.CrawlAll | scraper/crawlers/product_crawler.py:59-95 | the loop over the brands gives the products and side-list entries of `CrawlBrands`, up to the first exception |
| ProductCrawler.Crawler.Run | scraper/crawlers/product_crawler.py:50-116 | an unreadable `brands` or an exception in the loop raises with nothing saved; otherwise each of the three lists is saved exactly when non-empty |
| SitemapCrawler.CategoryName | scraper/crawlers/sitemap_crawler.py:38-41 | the `<strong>` text of the block, `Uncategorized` without one |
| SitemapCrawler.BlockLinks | scraper/crawlers/sitemap_crawler.py:42-47 | one entry per link of a block, in order, each with the block's category |
| SitemapCrawler.BrandLinksMember | scraper/crawlers/sitemap_crawler.py:35-47 | an entry is listed exactly when it is the entry of some link of some block, under that block's category: none dropped, none deduplicated |
| SitemapCrawler.CollectBlock | scraper/crawlers/sitemap_crawler.py:42-47 | the inner loop gives the block's entries |
| SitemapCrawler.CollectBrands | scraper/crawlers/sitemap_crawler.py:35-47 | no entry without a brand section, otherwise every link of every block with its category |
| SitemapCrawler.BeforeLastSpec | scraper/crawlers/sitemap_crawler.py:65 | `rsplit(c, 1)[0]` keeps a string without `c` whole, and otherwise cuts just before a `c` that has none after it |
| SitemapCrawler.BrandNameDropsCount | scraper/crawlers/sitemap_crawler.py:65 | a facet text `name(count)` gives back `name`: the cut falls on the last `(` |
| SitemapCrawler.RecipeBrandsMember | scraper/crawlers/sitemap_crawler.py:59-66 | the recipe brands are exactly the entries of the facet items that have a link |
| SitemapCrawler.RecipeBrandsCount | scraper/crawlers/sitemap_crawler.py:60-63 | no more recipe brands than facet items, and none when no item has a link |
| SitemapCrawler.CollectRecipeBrands | scraper/crawlers/sitemap_crawler.py:56-66 | the facet loop gives no entries without a facet, else the entries of the linked items |
| SitemapCrawler.Entries | scraper/crawlers/sitemap_crawler.py:76-94 | one `href`, `title`, `full_url` record per link, in order |
| SitemapCrawler.UrlSet | scraper/crawlers/sitemap_crawler.py:71 | the set of the URLs of a list of pages |
| SitemapCrawler.AddAboutIndexed | scraper/crawlers/sitemap_crawler.py:82-108 | adding to `about` keeps the seen-set equal to its URLs and each URL once, records the URL and leaves `articles` alone |
| SitemapCrawler.ExtendsTrans | scraper/crawlers/sitemap_crawler.py:71-108 | growing `about` and the seen-set in steps composes |
| SitemapCrawler.FeedsSpec | scraper/crawlers/sitemap_crawler.py:73-85 | the feed pass keeps `about` duplicate-free, only appends to it, records every link outside `/articles`, and every page it appends is the title and URL of the first such link with that URL, one not seen before |
| SitemapCrawler.FeedsArticles | scraper/crawlers/sitemap_crawler.py:79-80 | the feed pass adds to `articles` exactly the category feeds, in order and with repeats |
| SitemapCrawler.OtherArticleLinksDropped | scraper/crawlers/sitemap_crawler.py:79-83 | a link under `/articles` that is not a category feed is dropped |
| SitemapCrawler.LegalLinksSpec | scraper/crawlers/sitemap_crawler.py:91-108 | the legal pass over one section keeps `about` duplicate-free, only appends to it, leaves `articles` alone, records every legal link, and every page it appends is the title and URL of the first legal link with that URL, one not seen before |
| SitemapCrawler.LegalSpec | scraper/crawlers/sitemap_crawler.py:90-108 | the same over every section: every legal link of every section is recorded, and every appended page comes from the first legal link with its URL across the sections in order |
| SitemapCrawler.LegalSeenAddsNothing | scraper/crawlers/sitemap_crawler.py:106 | a legal link already seen adds nothing |
| SitemapCrawler.CollectFeeds | scraper/crawlers/sitemap_crawler.py:71-85 | the feed loop gives nothing without a feed section, else the feed pass |
| SitemapCrawler.AnyLegalKey | scraper/crawlers/sitemap_crawler.py:95-105 | the `any(...)` over the legal keys, one key at a time: true exactly when the href contains some key |
| SitemapCrawler.CollectLegalSection | scraper/crawlers/sitemap_crawler.py:91-108 | the loop over one section continues `about` and the seen-set as the legal pass does |
| SitemapCrawler.SectionEntries | scraper/crawlers/sitemap_crawler.py:90-94 | the records of every section, section by section |
| SitemapCrawler.CollectLegal | scraper/crawlers/sitemap_crawler.py:90-108 | the loop over every section gives the legal pass |
| SitemapCrawler.LegalIgnoresArticles | scraper/crawlers/sitemap_crawler.py:90-108 | the legal pass reads only `about` and the seen-set and keeps `articles` |
| SitemapCrawler.LinksIgnoreArticles | scraper/crawlers/sitemap_crawler.py:91-108 | the same for one section |
| SitemapCrawler.SitemapJson | scraper/crawlers/sitemap_crawler.py:23-28 | a dict with the keys `brands`, `recipes`, `articles`, `about` in that order, each the list of its entries |
| SitemapCrawler.AddedStep | scraper/crawlers/sitemap_crawler.py:82-85 | after one more link, every appended page is still traced to the first kept link with its URL |
| SitemapCrawler.AddedConcat | scraper/crawlers/sitemap_crawler.py:90-108 | two passes in a row: every page either appended is traced to its first kept link in the joined links |
| SitemapCrawler.AllPagesSpec | scraper/crawlers/sitemap_crawler.py:71-108 | after both passes `about` lists no URL twice and holds every feed link outside `/articles` and every legal link; conversely each `about` page is the first such feed link with its URL, or the first legal link with its URL when no such feed link has it; `articles` holds exactly the category feeds |
| SitemapCrawler.Run | scraper/crawlers/sitemap_crawler.py:19-114 | once both pages are loaded: the four passes, then the dict that is returned and saved |
| RecipeCrawler.ImageSet | scraper/crawlers/recipe_crawler.py:91-97 | at most one source per carousel image |
| RecipeCrawler.ImageSetMember | scraper/crawlers/recipe_crawler.py:91-97 | a source is kept exactly when some carousel image shows it: its `data-src`, or its `src` when `data-src` is missing or empty |
| RecipeCrawler.CollectImageSet | scraper/crawlers/recipe_crawler.py:91-95 | the image loop builds that set |
| RecipeCrawler.Title | scraper/crawlers/recipe_crawler.py:75-76 | the heading's stripped text, `Untitled` without an `h1` |
| RecipeCrawler.StatSpec | scraper/crawlers/recipe_crawler.py:83-89 | a statistic is missing exactly when its element is, or its text is blank; otherwise it is the words of the element's text joined by single spaces |
| RecipeCrawler.Instructions | scraper/crawlers/recipe_crawler.py:106-116 | the instruction paragraphs' texts, else the fallback paragraphs'; empty exactly when both selections are |
| RecipeCrawler.ParseRecipe | scraper/crawlers/recipe_crawler.py:66-141 | raises exactly for a card without a link, with UnboundLocalError (the handler's message reads the unbound `recipe_url`); `None` exactly when linked but the brand is not a string; a recipe's url is the joined `href`, with the brand and timestamp as given |
| RecipeCrawler.RecipeFields | scraper/crawlers/recipe_crawler.py:75-123 | `Untitled` without a heading; an image is kept exactly when a carousel image shows it; a description exactly when its paragraph exists; one ingredient and one tag per element; no instructions exactly when neither selection matches |
| RecipeCrawler.ParseRecipePage | scraper/crawlers/recipe_crawler.py:66-141 | the body of `parse_recipe_page`, with its image loop, gives `ParseRecipe` |
| RecipeCrawler.Outcomes | scraper/crawlers/recipe_crawler.py:49-52 | one task outcome per card, in card order |
| RecipeCrawler.CardRecipesMember | scraper/crawlers/recipe_crawler.py:52-54 | a recipe is kept exactly when some card gives it; exceptions and `None` are dropped |
| RecipeCrawler.NoStringBrandNoRecipes | scraper/crawlers/recipe_crawler.py:35-128 | an entry whose brand is not a string gives no recipe |
| RecipeCrawler.CardRecipesSnoc | scraper/crawlers/recipe_crawler.py:49-54 | one more card appends its recipe, if any |
| RecipeCrawler.ParseCards | scraper/crawlers/recipe_crawler.py:49-54 | the cards' recipes in card order (gathered concurrently in the source) |
| RecipeCrawler.SeedRecipes | scraper/crawlers/recipe_crawler.py:34-55 | an entry gets through exactly when it has `brand` and `url`, and then gives the recipes of its listing's cards |
| RecipeCrawler.CrawlSeed | scraper/crawlers/recipe_crawler.py:35-55 | the loop body for one entry |
| RecipeCrawler.AllRecipesOk | scraper/crawlers/recipe_crawler.py:34-36 | the run gets through exactly when every entry has a brand and a URL |
| RecipeCrawler.AllRecipesConcat | scraper/crawlers/recipe_crawler.py:34-55 | the recipes of consecutive entries come one after the other, in entry order |
| RecipeCrawler.AllRecipesFirstFailure | scraper/crawlers/recipe_crawler.py:34-36 | the first entry without a brand or URL ends the run with its exception |
| RecipeCrawler.AllRecipesMember | scraper/crawlers/recipe_crawler.py:34-55 | a collected recipe is exactly one some entry's cards give |
| RecipeCrawler.Crawl | scraper/crawlers/recipe_crawler.py:24-64 | a file that is written is never empty |
| RecipeCrawler.NoSeedsNothingSaved | scraper/crawlers/recipe_crawler.py:30-59 | a sitemap without `recipes` writes nothing and raises nothing |
| RecipeCrawler.SavedRecipes | scraper/crawlers/recipe_crawler.py:30-61 | with entries that all get through, the file is written exactly when some recipe was found, and holds exactly the recipes some entry's cards give |
| RecipeCrawler.CrawlAll | scraper/crawlers/recipe_crawler.py:32-57 | the loop over the entries, extending `all_recipes`, up to the first exception |
| RecipeCrawler.Run | scraper/crawlers/recipe_crawler.py:24-64 | `run` gives the outcome of `Crawl` |
| ArticleCrawler.Paragraphs | scraper/crawlers/article_crawler.py:87-91 | no paragraph text exactly when every direct paragraph is blank |
| ArticleCrawler.OutsideJoin | scraper/crawlers/article_crawler.py:92 | joining with a newline keeps exactly the non-blank characters of the paragraphs, in order |
| ArticleCrawler.ContentSpec | scraper/crawlers/article_crawler.py:86-100 | the content is `None` exactly when every paragraph is blank; otherwise the words of the newline-joined paragraphs joined by single spaces, trimmed, collapsed, with exactly the paragraphs' non-blank characters in order |
| ArticleCrawler.ParseArticle | scraper/crawlers/article_crawler.py:70-106 | raises exactly for a card without a link, with UnboundLocalError (the handler's message reads the unbound `article_url`); an article's url is the joined `href` and its timestamp as given |
| ArticleCrawler.ArticleGiven | scraper/crawlers/article_crawler.py:79-103 | a linked card gives an article exactly when its page has an `h1` inside a `div` and the category is `None` or a string |
| ArticleCrawler.ArticleFields | scraper/crawlers/article_crawler.py:79-103 | the title is the heading's stripped text; the category is the entry's title when that is a string, else `None`; a date exactly when the page has a date element; the content is built from the heading's enclosing `div` |
| ArticleCrawler.ParseArticlePage | scraper/crawlers/article_crawler.py:70-106 | the body of `parse_article_page`, with its paragraph filter, gives `ParseArticle` |
| ArticleCrawler.Outcomes | scraper/crawlers/article_crawler.py:52-55 | one task outcome per card, in card order |
| ArticleCrawler.CardArticlesMember | scraper/crawlers/article_crawler.py:55-57 | an article is kept exactly when some card gives it; exceptions and `None` are dropped |
| ArticleCrawler.InvalidCategoryNoArticles | scraper/crawlers/article_crawler.py:39-99 | an entry whose title is neither `None` nor a string gives no article |
| ArticleCrawler.CardArticlesSnoc | scraper/crawlers/article_crawler.py:52-57 | one more card appends its article, if any |
| ArticleCrawler.ParseCards | scraper/crawlers/article_crawler.py:52-57 | the cards' articles in card order (gathered concurrently in the source) |
| ArticleCrawler.SeedArticles | scraper/crawlers/article_crawler.py:38-58 | an entry gets through exactly when it has `title` and `url`, and then gives the articles of its listing's cards |
| ArticleCrawler.SeedCategory | scraper/crawlers/article_crawler.py:39-99 | every article of an entry carries the entry's title as its category |
| ArticleCrawler.CrawlSeed | scraper/crawlers/article_crawler.py:39-58 | the loop body for one entry |
| ArticleCrawler.AllArticlesOk | scraper/crawlers/article_crawler.py:38-40 | the run gets through exactly when every entry has a title and a URL |
| ArticleCrawler.AllArticlesConcat | scraper/crawlers/article_crawler.py:38-58 | the articles of consecutive entries come one after the other, in entry order |
| ArticleCrawler.AllArticlesFirstFailure | scraper/crawlers/article_crawler.py:38-40 | the first entry without a title or URL ends the run with its exception |
| ArticleCrawler.AllArticlesMember | scraper/crawlers/article_crawler.py:38-58 | a collected article is exactly one some entry's cards give |
| ArticleCrawler.Crawl | scraper/crawlers/article_crawler.py:24-67 | a file that is written is never empty |
| ArticleCrawler.NoSeedsNothingSaved | scraper/crawlers/article_crawler.py:34-62 | a sitemap without `articles` writes nothing and raises nothing |
| ArticleCrawler.SavedArticles | scraper/crawlers/article_crawler.py:34-64 | with entries that all get through, the file is written exactly when some article was found, and holds exactly the articles some entry's cards give |
| ArticleCrawler.CrawlAll | scraper/crawlers/article_crawler.py:36-60 | the loop over the entries, extending `all_articles`, up to the first exception |
| ArticleCrawler.Run | scraper/crawlers/article_crawler.py:24-67 | `run` gives the outcome of `Crawl` |
| Batch.Successes | scripts/vector/clean_product_data.py:26-52 | never more records than items |
| Batch.SuccessesConcat | scripts/vector/clean_product_data.py:26-52 | the records of consecutive items come one after the other |
| Batch.SuccessesDropFailure | scripts/vector/clean_product_data.py:51-52 | an item whose processing raises contributes nothing and leaves the records around it in place |
| Batch.SuccessesKeep | scripts/vector/clean_product_data.py:50 | an item whose processing succeeds contributes its record at its place |
| Batch.SuccessesAllOk | scripts/vector/clean_product_data.py:26-52 | when nothing raises, every item gives its record, position for position |
| Batch.SuccessesMember | scripts/vector/clean_product_data.py:26-52 | a record is saved exactly when some item's processing gives it |
| Batch.Map | scripts/vector/clean_product_data.py:27-28 | one outcome per item, each the item processed on its own |
| Batch.MapConcat | scripts/vector/clean_product_data.py:27-28 | the outcomes of consecutive items come one after the other |
| Batch.SuccessesSnoc | scripts/vector/clean_product_data.py:27-52 | one more item appends its record exactly when its processing succeeds |
| Batch.MapDropFailure | scripts/vector/clean_product_data.py:51-52 | a failing item is dropped; the items around it keep their records, in order |
| Batch.RunDropFailure | scripts/vector/clean_product_data.py:27-52 | in a run of any cleaner without skips (the products and recipes scripts), a failing item is dropped and the items around it keep their records, in order |
| Batch.RunSkippingDropFailure | scripts/clean_article_data.py:21-49 | in a run of the article cleaners, which skip items without content, a failing article is dropped and the others keep their records, in order |
| Batch.Run | scripts/vector/clean_product_data.py:26-54 | the run raises exactly when some item is not a dict (the handler's own `.get` raises AttributeError) |
| Batch.RunLoop | scripts/vector/clean_product_data.py:26-52 | the `processed` loop gives exactly `Run`: the successful records in input order |
| Batch.RunSkipping | scripts/clean_article_data.py:20-51 | with skipped items too, the run raises exactly when some item is not a dict |
| Batch.RunSkippingMember | scripts/clean_article_data.py:20-47 | a saved record is exactly the record of some item that was neither skipped nor failed |
| Batch.RunSkipLoop | scripts/clean_article_data.py:20-49 | the loop with `continue` gives exactly `RunSkipping` |
| Batch.SaveIfAny | scraper/crawlers/recipe_crawler.py:59-61 | a file is written exactly when the list is non-empty, and holds that list |
| Batch.ChainSnoc | scraper/crawlers/recipe_crawler.py:34-55 | one more entry extends the collected list with its own, or ends the loop with its exception |
| Batch.ChainOk | scraper/crawlers/recipe_crawler.py:34-55 | the loop gets through exactly when no entry raises |
| Batch.ChainConcat | scraper/crawlers/recipe_crawler.py:34-55 | the lists of consecutive entries come one after the other |
| Batch.ChainStops | scraper/crawlers/recipe_crawler.py:34-55 | an entry that raises after entries that did not ends the loop with its exception |
| Batch.ChainFirstFailure | scraper/crawlers/recipe_crawler.py:34-55 | the first entry that raises decides the outcome, whatever comes after it |
| Batch.ChainMember | scraper/crawlers/recipe_crawler.py:34-55 | a value is collected exactly when it is in some entry's list |

## Left out

- Browser control (Playwright launch, tabs, `goto`, clicks, waits, timeouts, `page.content`) is foreign I/O. A visit is given as what the page shows after each wait, and a probe as its outcome.
- The `asyncio` semaphore and `gather` are not modelled. The cards of a listing are processed in order, and each outcome is kept as a value; the concurrency bound is not a sequential property.
- BeautifulSoup selector matching is not modelled. Pages arrive as the elements the selectors match: tag texts, attributes and child lists.
- `urlparse` and `urljoin` are modelled only for the references the crawlers meet: a host between `//` and the path, and a join against the site origin. Full resolution per section 5 of RFC 3986 is not modelled.
- Only ASCII is modelled for `str.lower`, `str.strip`, `str.split` and regular-expression `\s`, because the Unicode tables are out of reach.
- JSON file reading and writing (`load_json`, `save_json`, `open`, `os.makedirs`) is I/O. Each run returns what it would write, or `None` where it writes nothing.
- Progress and failure `print` lines are output only. No decision depends on them.
- `datetime.now()` is nondeterministic, so the timestamps are parameters. One value stands for every clock read of a crawl run. The source reads the clock once per record (scraper/crawlers/product_crawler.py:270, scraper/crawlers/recipe_crawler.py:125, scraper/crawlers/article_crawler.py:94), so its records may carry different `created_at` values where the model's all carry the same one.
- Floats are left out: the model's JSON numbers are integers. This drops embeddings, search scores and fractional nutrition values.
- `repr` of strings inside a rendered list or dict quotes with `'` and does no escaping. The escaping rules are not modelled.
- JSON objects are association lists, and lookup takes the first binding. Files written by `json.dump` never repeat a key.
- `1 == True` and hashability of Python values are not modelled beyond what the special-brand lookup needs: a list or dict name cannot be hashed there.
- HybridRag.MostCommonField: `max(set(xs), key=xs.count)` breaks ties by set iteration order, which depends on string hashes. The contract promises only some value counted at least as often as every other.
- The remote services are not modelled: Azure Search, the OpenAI client and embeddings, the Neo4j driver and its Cypher queries (`backend/services/graph_query.py`, `common/neo4j_client.py`), and the upload scripts. Their answers are parameters.
- The graph queries' matching semantics in the hybrid service are not modelled, nor is the search's `top_k`. The records they return are inputs.
- FastAPI request validation is not modelled (the request models accept only strings). The check of the chat reply against `response_model=ChatResponse` is modelled with the pydantic rules named below, and its failure is `InvalidResponse`: the text the server sends for that uncaught error is not modelled. A Starlette `HTTPException` caught inside the chat endpoint is rendered by its `str` as `"<status>: <detail>"`.
- pydantic's lax coercions beyond the three field kinds used are not modelled: `str`, `Optional[str]` and `List[str]` accept exactly strings, `None`-or-string and lists of strings.
- The React components, `backend/main.py`, `scraper/scrape_main.py` and the literals of `common/constants.py` are UI and configuration. They are not part of this model.
- `models/indexed_document.py`, imported by the legacy cleaners, is not part of this model. Its record is assumed to have the fields of the current one plus `article_category`.
- Cross-file schema mismatches are kept as written:
  - the crawler writes products with `name`, and the cleaners read `title`;
  - the crawler writes articles with `punlished_at`, and the cleaner reads `published_at`;
  - the article and recipe cleaners pass `pruduct_label=None`, a keyword the record does not have; pydantic ignores it, and the label keeps its default `None`.
- `backend/api/graph_editing.py` imports `BrandNode`, `ProductNode` and `HasProductEdge` from `backend/models/graph_models.py`, which is not part of this model. `GraphEditing` reuses `GraphCleaner`'s nodes from `scripts/graph/schema.py` in their place, assumed to carry the same fields.
- GraphEditing.NodeResponse / GraphEditing.EdgeResponse: `backend/api/graph_editing.py:4` imports `GraphStats` and `GraphAddResponse` from `backend/models/response_models.py`, but that file defines only `Source` and `ChatResponse`, so the module as given cannot be imported, and `backend/main.py:6` mounts only the chat router. The model assumes `GraphAddResponse` has a text `status` and a `stats`, and that `GraphStats` has three optional integer counters, `nodes_created`, `properties_set` and `relationships_created`, each `None` when not passed. Had those counters been required, building `GraphStats` at `graph_editing.py:112-115` and in `_build_edge_response` would raise inside each endpoint's `try` and every add would answer a 500.
- Text.DigitsValue: the cited number is an unbounded integer. JavaScript's `parseInt` returns a double, so numbers above 2^53 may collide and very long digit runs become `Infinity`; the model does not capture that.
- JavaScript truthiness of the source objects that `getUsedSources` filters is not modelled. It is a parameter, `truthy`.
- BaseCrawler.Crawler.InitBrowser: a launch failure is not modelled, and the `headless` flag is a constant of the object.
- `close_browser` in the crawlers' `finally` blocks releases browser resources and changes no result.
- BaseCrawler.PaginationClicksUntilAbsent: it requires that the control eventually disappears. The source has no cap, and without that its loop does not end.
- RecipeCrawler.ImageSet: the recipe images are a `set`, whose order the source leaves unspecified, so the model keeps them as a set.
- RecipeCrawler.Crawl: its own contract says only that a written file is non-empty. What the file holds is stated by `SavedRecipes` for loops that get through.
- ArticleCrawler.Crawl: its own contract says only that a written file is non-empty. What the file holds is stated by `SavedArticles` for loops that get through.
- The sitemap crawler's page loading, its `load`/`save_json` calls and its browser start-up are I/O. The two pages arrive already parsed.
