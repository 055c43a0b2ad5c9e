# Refactoring examples, modelled in Dafny

This project models the code of a corpus of JavaScript refactoring examples. Each `example.js` holds up to three pairs, `exampleNBefore` and `exampleNAfter`. The two functions of a pair are meant to compute the same thing, before and after one named refactoring: guard clauses, consolidated conditionals, pipelines, encapsulated collections, strategy objects, commands, special-case objects, and so on. For each pair the model has both versions. For most pairs it proves that they return the same result and leave the same state on every input. The exceptions are stated as such:

- guard-clauses example 1 agrees only on an employee with at most one of the three flags set (`AtMostOneFlag`); `Example1OrderMatters` shows the two versions paying differently otherwise;
- guard-clauses example 3 differs on a configuration without a timeout (see Findings);
- replace-error-code example 2 agrees whenever the JSON parses; on a parse failure Before reports "Invalid JSON" and After the parser's own message;
- replace-function-with-command example 2 returns a different message in each version, and logs the same lines only when the module-level command queue starts empty; a queue left over from earlier runs replays their commands first;
- replace-inline-code-with-function-call examples 1 and 3 and replace-magic-literal example 3 are not modelled (see Left out).

Beyond the pairs, the model also proves the local facts each helper promises: loop results, bounds, the order in which errors are reported, and which fields a method changes.

Three more pieces of the repository are modelled the same way:

- the markdown guideline extractor used by the grading tests (`extractGuideline`), which finds a `## Section`, then a `- **Principle**` bullet inside it, then the bullet's indented sub-bullets;
- the two AlphaVantage client fixtures, one with small retry and rate-limit helpers and one with them inlined. Both follow the same retry, back-off and sticky rate-limit policy, and each client is proved against that policy;
- the two report-service fixtures, one with `addReport` in one function and one split into steps. Both apply the same guards, build the same JQL text, fill one issue list per status category and count the issues.

Conventions used throughout:

- One Dafny module per source file. The module `Js` gives the JavaScript built-ins the examples use: `split`, `join`, `trim`, `toLowerCase`/`toUpperCase`, `String(n)`, `filter`, `map`, `findIndex`, `reduce` for sums, `Math.max`, and `console.log` as a list of captured lines.
- A thrown `Error` is a `Result`/`Outcome` value carrying the message. `null`/`undefined` is `Option`.
- A fixture that an example builds inside its body becomes a parameter or a constant. A lemma or method then proves the result the example's comment names.
- Objects whose fields the source updates in place are classes with `modifies` clauses. Module-level mutable state (`state`, `balance`, `commandQueue`) is an object passed to the functions that use it.
- Two "Expected output" comments in `src/situational/replace-temp-with-query/example.js` disagree with the code, and the model follows the code. At line 2 the comment says 970, but 100 × 10 is exactly 1000, which is not above the threshold, so the factor is 0.98 and the price 980. At line 25 the comment says tax 20 and grand total 140, but 20% of 120 is 24 and 120 + 24 is 144.

## Model

| member | source | states |
|---|---|---|
| `GuardClauses.CalculateNormalPay` | src/general/guard-clauses/example.js:4-6 | reason is 'normal'; amount is the salary when present and nonzero, else 5000 (`salary \|\| 5000`), never 0 |
| `GuardClauses.Example1Before` | src/general/guard-clauses/example.js:8-24 | separated, then retired, then deceased give amount 0 with that reason; an unflagged employee gets normal pay; with at most one flag set it equals Example1After |
| `GuardClauses.Example1After` | src/general/guard-clauses/example.js:26-32 | amount is 0 exactly when some flag is set; dead is tested first, then separated, then retired: a dead employee gets 'deceased', a living separated one 'separated' (even when also retired), a living retired one 'retired'; an unflagged one gets normal pay |
| `GuardClauses.Example1OrderMatters` | src/general/guard-clauses/example.js:10-17 | with both isSeparated and isDead set, Before says 'separated' and After says 'deceased': the two orders differ |
| `GuardClauses.ValidateEmail` | src/general/guard-clauses/example.js:37-39 | true exactly for a nonempty email containing '@' |
| `GuardClauses.NormalizeEmail` | src/general/guard-clauses/example.js:41-43 | the result is the email trimmed of white space at both ends (Js.Trim's contract says which characters it keeps), then lower-cased: `toLowerCase().trim()` equals `trim().toLowerCase()`, so it holds no upper-case ASCII letter and starts and ends with a non-space character |
| `GuardClauses.Example2Before` | src/general/guard-clauses/example.js:45-69 | returns exactly what Example2After returns for every payload |
| `GuardClauses.Example2After` | src/general/guard-clauses/example.js:71-82 | an error exactly when a check fails, with the message of the first failing check (data, id, email, format); otherwise the id, the normalised email and the name defaulting to 'Unknown' |
| `GuardClauses.Example2ErrorOrder` | src/general/guard-clauses/example.js:72-75 | a payload passes iff it is present, has an id and an email with '@'; a missing id is reported before a missing email |
| `GuardClauses.Client.constructor` | src/general/guard-clauses/example.js:87-89 | a client is connected and refers to the service it was made for |
| `GuardClauses.Service.constructor` | src/general/guard-clauses/example.js:96-101 | copies apiKey, endpoint and timeout, and sets status 'initialized' |
| `GuardClauses.CreateClient` | src/general/guard-clauses/example.js:87-89 | a fresh connected client whose service is the argument |
| `GuardClauses.Example3ErrorsAgree` | src/general/guard-clauses/example.js:91-129 | for a numeric timeout both versions throw the same message; they differ exactly when the timeout is missing and the key and endpoint are set |
| `GuardClauses.Example3Before` | src/general/guard-clauses/example.js:91-113 | throws 'API key is required', then 'Endpoint is required', then 'Timeout must be positive'; otherwise a fresh initialised service whose client.service is the service itself |
| `GuardClauses.Example3After` | src/general/guard-clauses/example.js:115-129 | the guard-clause version as written: the timeout guard fires only for a present timeout ≤ 0; a successful service is initialised with its client pointing back to it |
| `GuardClauses.Example3MissingTimeout` | src/general/guard-clauses/example.js:95-118 | a configuration without a timeout: Before throws 'Timeout must be positive', After returns a service |
| `GuardClauses.Example3AfterCorrected` | src/general/guard-clauses/example.js:115-129 | with the last guard written `!(timeout > 0)` the guard-clause version throws and succeeds exactly as Example3Before does |
| `GuardClauses.Flagged` | src/general/guard-clauses/example.js:27-29 | some status flag is set; Example1After states the amount is 0 exactly then |
| `GuardClauses.UserDataError` | src/general/guard-clauses/example.js:72-75 | the first failing check's message, or none; Example2After and Example2ErrorOrder state the order of the checks |
| `GuardClauses.Service.InitializedFrom` | src/general/guard-clauses/example.js:96-102 | the service holds the config's fields, status 'initialized' and a connected client pointing back; Example3Before and Example3After ensure it on success |
| `GuardClauses.TimeoutPositive` | src/general/guard-clauses/example.js:95 | the nested test `config.timeout > 0`, false for a missing timeout; Example3MissingTimeout states the consequence |
| `GuardClauses.ConfigError` | src/general/guard-clauses/example.js:93-111 | the nested version's message, or none; Example3ErrorsAgree compares it with the guard-clause version |
| `GuardClauses.ConfigErrorAsWritten` | src/general/guard-clauses/example.js:116-118 | the guard-clause version's message, or none; Example3ErrorsAgree states exactly where it differs |
| `ConsolidateConditional.Example1Before` | src/general/consolidate-conditional-expression/example.js:4-10 | the amount is 0 or the benefit of 1000, and the benefit exactly when seniority ≥ 2, at most 12 months disabled and not part-time |
| `ConsolidateConditional.Example1After` | src/general/consolidate-conditional-expression/example.js:12-26 | the consolidated test returns what the three early returns return, for every employee |
| `ConsolidateConditional.Example1Fixture` | src/general/consolidate-conditional-expression/example.js:5-13 | the fixture employee (seniority 1) gets 0 from both versions |
| `ConsolidateConditional.Example2Before` | src/general/consolidate-conditional-expression/example.js:31-43 | 'discount applied' exactly for a total ≥ 50, a loyal customer and at least 5 items; 'no discount' otherwise |
| `ConsolidateConditional.Example2After` | src/general/consolidate-conditional-expression/example.js:45-57 | returns what the three early returns return, for every order |
| `ConsolidateConditional.Example2Fixture` | src/general/consolidate-conditional-expression/example.js:32-46 | the fixture order gives 'no discount' in both versions |
| `ConsolidateConditional.Example3Before` | src/general/consolidate-conditional-expression/example.js:62-75 | clearing the flag once per failed test yields the same answer as the consolidated hasAccess version |
| `ConsolidateConditional.Example3After` | src/general/consolidate-conditional-expression/example.js:77-85 | 'access granted' exactly for an active admin with permission, 'access denied' otherwise |
| `ConsolidateConditional.Example3Fixture` | src/general/consolidate-conditional-expression/example.js:63-78 | the fixture user (not an admin) is denied |
| `ConsolidateConditional.CalculateDisabilityAmount` | src/general/consolidate-conditional-expression/example.js:24-26 | the benefit is 1000; Example1Before states when it is paid |
| `ConsolidateConditional.IsNotEligibleForDisability` | src/general/consolidate-conditional-expression/example.js:18-22 | the three tests OR-ed; Example1After states it matches the three early returns |
| `ConsolidateConditional.IsNotEligibleForDiscount` | src/general/consolidate-conditional-expression/example.js:53-57 | the three tests OR-ed; Example2After states it matches the three early returns |
| `ConsolidateConditional.HasAccess` | src/general/consolidate-conditional-expression/example.js:83-85 | admin, permission and active AND-ed; Example3Before states the flag-clearing loop gives the same answer |
| `DecomposeConditional.IsNotSummer` | src/general/decompose-conditional/example.js:4-33 | false exactly on the days from 2024-06-01 to 2024-08-31 inclusive |
| `DecomposeConditional.Example1Before` | src/general/decompose-conditional/example.js:7-17 | a summer day is charged quantity × summer rate; any other day quantity × regular rate plus the service charge |
| `DecomposeConditional.Example1After` | src/general/decompose-conditional/example.js:19-41 | the extracted predicate and charge functions give the inline version's charge for every date, quantity and plan |
| `DecomposeConditional.Example1Fixture` | src/general/decompose-conditional/example.js:8-22 | 2024-03-15 is not summer and the fixture is charged 300 |
| `DecomposeConditional.Example2Before` | src/general/decompose-conditional/example.js:46-54 | 'Eligible for premium plan' exactly for ages 18 to 65 with income ≥ 50000, credit score ≥ 700 and no debt; otherwise 'Not eligible for premium plan' |
| `DecomposeConditional.Example2After` | src/general/decompose-conditional/example.js:56-79 | the extracted predicate and message functions give the inline version's answer for every applicant |
| `DecomposeConditional.Example2Fixture` | src/general/decompose-conditional/example.js:47-57 | the fixture applicant is eligible |
| `DecomposeConditional.Example3Before` | src/general/decompose-conditional/example.js:84-92 | a qualifying order costs 90% of its total, any other its total; a non-negative total is never increased nor made negative |
| `DecomposeConditional.Example3After` | src/general/decompose-conditional/example.js:94-114 | the extracted functions give the inline version's price for every order |
| `DecomposeConditional.Example3Fixture` | src/general/decompose-conditional/example.js:85-95 | the fixture order of 100 costs 90 |
| `DecomposeConditional.WinterCharge` | src/general/decompose-conditional/example.js:35-37 | quantity × regular rate plus the service charge; Example1After states it is the inline charge off summer |
| `DecomposeConditional.SummerCharge` | src/general/decompose-conditional/example.js:39-41 | quantity × summer rate; Example1After states it is the inline charge in summer |
| `DecomposeConditional.IsEligibleForPremium` | src/general/decompose-conditional/example.js:66-71 | age 18 to 65, income, credit score and no debt AND-ed; Example2After states it gives the inline answer |
| `DecomposeConditional.EligibleMessage` | src/general/decompose-conditional/example.js:73-75 | 'Eligible for premium plan'; Example2After and Example2Fixture state when it is returned |
| `DecomposeConditional.NotEligibleMessage` | src/general/decompose-conditional/example.js:77-79 | 'Not eligible for premium plan'; Example2After states when it is returned |
| `DecomposeConditional.QualifiesForDiscount` | src/general/decompose-conditional/example.js:104-106 | a loyal order above 50 or more than 10 items; Example3After states it gives the inline test |
| `DecomposeConditional.ApplyDiscount` | src/general/decompose-conditional/example.js:108-110 | 90% of the total; Example3Before and Example3After state when it applies |
| `DecomposeConditional.RegularPrice` | src/general/decompose-conditional/example.js:112-114 | the total unchanged; Example3Before and Example3After state when it applies |
| `EncapsulateCollection.RemoveCourseKeepsOthers` | src/general/encapsulate-collection/example.js:33-35 | after removeCourse no course of that name is left, every other course stays, and an absent name changes nothing |
| `EncapsulateCollection.RemoveCourseSnoc` | src/general/encapsulate-collection/example.js:33-35 | removal keeps the surviving courses in their original order |
| `EncapsulateCollection.PersonBefore.constructor` | src/general/encapsulate-collection/example.js:5-10 | a person with the given name and no courses |
| `EncapsulateCollection.Person.constructor` | src/general/encapsulate-collection/example.js:19-23 | a person with the given name and an empty private course list |
| `EncapsulateCollection.Person.Courses` | src/general/encapsulate-collection/example.js:25-27 | the getter returns a new array holding exactly the private courses |
| `EncapsulateCollection.Person.AddCourse` | src/general/encapsulate-collection/example.js:29-31 | the course is appended and the earlier courses are unchanged |
| `EncapsulateCollection.Person.RemoveCourse` | src/general/encapsulate-collection/example.js:33-35 | the private list becomes the courses whose name differs |
| `EncapsulateCollection.ChangeCopy` | src/general/encapsulate-collection/example.js:25-27 | writing into the array the getter returned leaves the person's courses unchanged |
| `EncapsulateCollection.Example1Before` | src/general/encapsulate-collection/example.js:4-16 | pushing into the public array yields ['Math', 'Physics'] |
| `EncapsulateCollection.Example1After` | src/general/encapsulate-collection/example.js:18-42 | the encapsulated person yields the same ['Math', 'Physics'] |
| `EncapsulateCollection.TaskListBefore.constructor` | src/general/encapsulate-collection/example.js:48-52 | an empty public task list |
| `EncapsulateCollection.TaskList.constructor` | src/general/encapsulate-collection/example.js:64-67 | an empty private task list |
| `EncapsulateCollection.TaskList.Tasks` | src/general/encapsulate-collection/example.js:69-71 | the getter returns a new array holding exactly the private tasks |
| `EncapsulateCollection.TaskList.AddTask` | src/general/encapsulate-collection/example.js:73-75 | appends the new task to the private list |
| `EncapsulateCollection.TaskList.RemoveTask` | src/general/encapsulate-collection/example.js:77-79 | keeps, in order, every stored task whose id differs |
| `EncapsulateCollection.Example2Before` | src/general/encapsulate-collection/example.js:47-61 | 2 tasks after the two pushes and 1 after filtering out id 1 |
| `EncapsulateCollection.Example2After` | src/general/encapsulate-collection/example.js:63-89 | the encapsulated list gives the same counts, 2 and 1 |
| `EncapsulateCollection.TotalAfterRemove` | src/general/encapsulate-collection/example.js:126-132 | removing the items named n lowers the reduce total by exactly the prices of those items |
| `EncapsulateCollection.TotalSnoc` | src/general/encapsulate-collection/example.js:100-102 | pushing an item raises the reduce total by its price |
| `EncapsulateCollection.ShoppingCartBefore.constructor` | src/general/encapsulate-collection/example.js:96-98 | an empty public item list |
| `EncapsulateCollection.TotalNonNegative` | src/general/encapsulate-collection/example.js:100-102 | with no negative price the reduce total is never negative |
| `EncapsulateCollection.ShoppingCartBefore.GetTotal` | src/general/encapsulate-collection/example.js:100-102 | the left fold of the item prices starting from 0: 0 for an empty cart, never negative when no price is |
| `EncapsulateCollection.ShoppingCart.constructor` | src/general/encapsulate-collection/example.js:114-116 | an empty private item list |
| `EncapsulateCollection.ShoppingCart.Items` | src/general/encapsulate-collection/example.js:118-120 | the getter returns a new array holding exactly the private items |
| `EncapsulateCollection.ShoppingCart.AddItem` | src/general/encapsulate-collection/example.js:122-124 | the item is appended and the total rises by its price |
| `EncapsulateCollection.ShoppingCart.RemoveItem` | src/general/encapsulate-collection/example.js:126-128 | the items of that name are dropped and the total falls by their prices |
| `EncapsulateCollection.ShoppingCart.GetTotal` | src/general/encapsulate-collection/example.js:130-132 | the sum of the prices of the cart's items; AddItem and RemoveItem state how it changes |
| `EncapsulateCollection.Example3Before` | src/general/encapsulate-collection/example.js:94-110 | the three pushed items total 150 |
| `EncapsulateCollection.Example3After` | src/general/encapsulate-collection/example.js:112-140 | the encapsulated cart totals the same 150 |
| `EncapsulateCollection.CourseName` | src/general/encapsulate-collection/example.js:15 | the `c => c.name` mapping; Example1Before and Example1After state the names it yields |
| `EncapsulateCollection.NotCourseNamed` | src/general/encapsulate-collection/example.js:34 | the filter test `c.name !== courseName`; RemoveCourseKeepsOthers states what filtering by it keeps |
| `EncapsulateCollection.NotTaskId` | src/general/encapsulate-collection/example.js:78 | the filter test `t.id !== id`; TaskList.RemoveTask states what filtering by it keeps |
| `EncapsulateCollection.NotItemNamed` | src/general/encapsulate-collection/example.js:127 | the filter test `i.name !== itemName`; TotalAfterRemove states the total left after filtering by it |
| `EncapsulateCollection.Total` | src/general/encapsulate-collection/example.js:131 | the reduce over the prices from 0; TotalSnoc and TotalAfterRemove state how pushing and removing change it |
| `EncapsulateCollection.ItemNamed` | src/general/encapsulate-collection/example.js:127 | the complement of the removal filter's test; TotalAfterRemove states removal lowers the total by exactly the prices of the items it selects |
| `ReplaceLoopWithPipeline.Example1After` | src/general/replace-loop-with-pipeline/example.js:15-20 | at most one name per person, and every name is that of an engineer in the input |
| `ReplaceLoopWithPipeline.Example1AfterSnoc` | src/general/replace-loop-with-pipeline/example.js:15-20 | one more person appends their name at the end exactly when they are an engineer |
| `ReplaceLoopWithPipeline.Example1Before` | src/general/replace-loop-with-pipeline/example.js:5-13 | the for-of loop with push returns exactly the pipeline's names, in the same order, for every input |
| `ReplaceLoopWithPipeline.Example2After` | src/general/replace-loop-with-pipeline/example.js:35-40 | at most one value per number; every value exceeds 10 and is the square of some input number |
| `ReplaceLoopWithPipeline.Example2AfterSnoc` | src/general/replace-loop-with-pipeline/example.js:35-40 | one more number appends its square exactly when the square exceeds 10 |
| `ReplaceLoopWithPipeline.Example2Before` | src/general/replace-loop-with-pipeline/example.js:24-33 | the loop returns exactly the pipeline's result for every list of numbers |
| `ReplaceLoopWithPipeline.Example3After` | src/general/replace-loop-with-pipeline/example.js:57-63 | at most one amount per order; each exceeds 100 and is price × quantity of a completed order |
| `ReplaceLoopWithPipeline.Example3AfterSnoc` | src/general/replace-loop-with-pipeline/example.js:57-63 | one more order appends its amount exactly when it is completed and the amount exceeds 100 |
| `ReplaceLoopWithPipeline.Example3Before` | src/general/replace-loop-with-pipeline/example.js:44-55 | the nested-if loop returns exactly the three-stage pipeline's result for every list of orders |
| `ReplaceLoopWithPipeline.IsEngineer` | src/general/replace-loop-with-pipeline/example.js:17 | the filter stage; Example1After states every kept person passes it and every person passing it is kept |
| `ReplaceLoopWithPipeline.NameOf` | src/general/replace-loop-with-pipeline/example.js:18 | the map stage; Example1After states every name in the result is that of a kept person |
| `ReplaceLoopWithPipeline.Square` | src/general/replace-loop-with-pipeline/example.js:37 | the map stage; Example2After states every value is the square of some input number |
| `ReplaceLoopWithPipeline.Above10` | src/general/replace-loop-with-pipeline/example.js:38 | the filter stage; Example2After states every value exceeds 10 |
| `ReplaceLoopWithPipeline.IsSquareOfSome` | src/general/replace-loop-with-pipeline/example.js:37 | a value is the square of an input number; Example2After states it of every value in the result |
| `ReplaceLoopWithPipeline.IsCompleted` | src/general/replace-loop-with-pipeline/example.js:59 | the first filter stage; Example3AfterSnoc states an order contributes only when it passes |
| `ReplaceLoopWithPipeline.AmountOf` | src/general/replace-loop-with-pipeline/example.js:60 | the map stage, price times quantity; Example3After states every amount in the result is one of these |
| `ReplaceLoopWithPipeline.Above100` | src/general/replace-loop-with-pipeline/example.js:61 | the last filter stage; Example3After states every amount exceeds 100 |
| `RemoveFlagArgument.Style.constructor` | src/general/remove-flag-argument/example.js:5-6 | an empty style object: display is not set |
| `RemoveFlagArgument.Element.constructor` | src/general/remove-flag-argument/example.js:5-6 | an element with its own fresh, empty style |
| `RemoveFlagArgument.SetVisibility` | src/general/remove-flag-argument/example.js:30-36 | display becomes 'block' when the flag is true and 'none' when it is false; nothing else changes |
| `RemoveFlagArgument.Show` | src/general/remove-flag-argument/example.js:38-40 | leaves the element as setVisibility(e, true) does: display 'block' |
| `RemoveFlagArgument.Hide` | src/general/remove-flag-argument/example.js:42-44 | leaves the element as setVisibility(e, false) does: display 'none' |
| `RemoveFlagArgument.Example1Before` | src/general/remove-flag-argument/example.js:4-15 | navbar 'block' and sidebar 'none': setting one element leaves the other's display alone |
| `RemoveFlagArgument.Example1After` | src/general/remove-flag-argument/example.js:17-28 | show/hide give the same navbar 'block' and sidebar 'none' |
| `RemoveFlagArgument.DeliveryDate` | src/general/remove-flag-argument/example.js:58-72 | with the flag set it returns rushDelivery's result, without it regularDelivery's; the type is 'rush' exactly when the flag is set |
| `RemoveFlagArgument.DeliveryIgnoresDate` | src/general/remove-flag-argument/example.js:58-64 | the result does not depend on the date |
| `RemoveFlagArgument.Example2Before` | src/general/remove-flag-argument/example.js:49-56 | equals example2After: { type: 'rush', days: 1 } |
| `RemoveFlagArgument.RenderProfile` | src/general/remove-flag-argument/example.js:87-101 | premium flag gives renderPremiumProfile's markup, otherwise renderStandardProfile's; both start with `<div>` and the name |
| `RemoveFlagArgument.Example3Before` | src/general/remove-flag-argument/example.js:77-85 | the flag version renders the premium fixture user exactly as renderPremiumProfile does |
| `RemoveFlagArgument.RushDelivery` | src/general/remove-flag-argument/example.js:66-68 | { type: 'rush', days: 1 } whatever the date; DeliveryDate states it is what the flag version returns for a set flag |
| `RemoveFlagArgument.RegularDelivery` | src/general/remove-flag-argument/example.js:70-72 | { type: 'regular', days: 5 } whatever the date; DeliveryDate states it is what the flag version returns for a cleared flag |
| `RemoveFlagArgument.Example2After` | src/general/remove-flag-argument/example.js:54-56 | rushDelivery of 2024-01-01; Example2Before states it is { type: 'rush', days: 1 }, as the flag version gives |
| `RemoveFlagArgument.RenderPremiumProfile` | src/general/remove-flag-argument/example.js:95-97 | the name and the premium badge in a div; RenderProfile states it is the flag version's markup for a premium flag |
| `RemoveFlagArgument.RenderStandardProfile` | src/general/remove-flag-argument/example.js:99-101 | the name in a div; RenderProfile states it is the flag version's markup for a cleared flag |
| `RemoveFlagArgument.Example3After` | src/general/remove-flag-argument/example.js:82-85 | renderPremiumProfile of the fixture user; Example3Before states the flag version renders the same |
| `SplitVariable.Example1Before` | src/general/split-variable/example.js:4-12 | the reused temp logs the area then the perimeter and returns the perimeter |
| `SplitVariable.Example1After` | src/general/split-variable/example.js:14-22 | the split constants log the same two lines and return the same perimeter, for every height and width |
| `SplitVariable.Example1Fixture` | src/general/split-variable/example.js:2-6 | height 10 and width 20 log 'Area: 200' and 'Perimeter: 60' |
| `SplitVariable.Example2Before` | src/general/split-variable/example.js:27-29 | the horizontal distance copied out of the reused variable equals the split version's, 30 |
| `SplitVariable.Example2After` | src/general/split-variable/example.js:36 | the horizontal distance \|40 - 10\| is 30 |
| `SplitVariable.SumOfDoubled` | src/general/split-variable/example.js:56-57 | the sum of the doubled numbers is twice the sum of the numbers |
| `SplitVariable.Example3Before` | src/general/split-variable/example.js:45-52 | the reused value gives the same doubled array and sum as the split version |
| `SplitVariable.Example3After` | src/general/split-variable/example.js:54-59 | doubled holds each number times two, in order; summed is twice the sum of the numbers |
| `SplitVariable.Example3Fixture` | src/general/split-variable/example.js:43-55 | [1, 2, 3] gives { doubled: [2, 4, 6], summed: 12 } |
| `SplitVariable.AreaPerimeterLog` | src/general/split-variable/example.js:8-20 | 'Area: ' with height times width, then 'Perimeter: ' with twice their sum; Example1Before and Example1After state both versions log exactly these lines |
| `SplitVariable.Abs` | src/general/split-variable/example.js:28 | Math.abs on integers; Example2Before and Example2After state the horizontal distance is 30 |
| `SplitVariable.Double` | src/general/split-variable/example.js:56 | the map callback n * 2; SumOfDoubled states doubling every number doubles the sum |
| `ReplaceInlineCode.CapWord` | src/general/replace-inline-code-with-function-call/example.js:28-40 | same length; the first character upper-cased and the rest unchanged; the empty word stays empty |
| `ReplaceInlineCode.Example2Before` | src/general/replace-inline-code-with-function-call/example.js:25-42 | the inline split/map/join expression equals capitalizeWords on every text |
| `ReplaceInlineCode.PipelineIsScan` | src/general/replace-inline-code-with-function-call/example.js:38-42 | split/capitalise/join is a single left-to-right scan that upper-cases each character following a space or the start |
| `ReplaceInlineCode.CapFromLength` | src/general/replace-inline-code-with-function-call/example.js:38-42 | the scan keeps the length of the text |
| `ReplaceInlineCode.CapFromAt` | src/general/replace-inline-code-with-function-call/example.js:38-42 | character i of the scan is upper-cased exactly when it starts a word, else unchanged |
| `ReplaceInlineCode.CapFromIdempotent` | src/general/replace-inline-code-with-function-call/example.js:38-42 | scanning twice is scanning once |
| `ReplaceInlineCode.CapitalizeWords` | src/general/replace-inline-code-with-function-call/example.js:38-42 | the split/map/join pipeline equals a single left-to-right scan that upper-cases the first character of each space-separated word |
| `ReplaceInlineCode.CapitalizeWordsAt` | src/general/replace-inline-code-with-function-call/example.js:38-42 | capitalizeWords keeps the length and every space, upper-cases the first character of each word and leaves every other character alone |
| `ReplaceInlineCode.CapitalizeWordsIdempotent` | src/general/replace-inline-code-with-function-call/example.js:38-42 | capitalizing an already capitalized text changes nothing |
| `ReplaceInlineCode.SplitWordCount` | src/general/replace-inline-code-with-function-call/example.js:39-41 | split(' ') yields one more word than there are spaces, map keeps that count, and empty words stay empty |
| `ReplaceInlineCode.Example2Fixture` | src/general/replace-inline-code-with-function-call/example.js:23-34 | 'hello world' becomes 'Hello World' |
| `ReplaceInlineCode.Example2After` | src/general/replace-inline-code-with-function-call/example.js:33-36 | the call to capitalizeWords; Example2Before states the inline pipeline equals it and Example2Fixture gives 'Hello World' |
| `ReplaceInlineCode.CapFrom` | src/general/replace-inline-code-with-function-call/example.js:38-42 | the reference scan for capitalizeWords; PipelineIsScan, CapFromAt, CapFromLength and CapFromIdempotent state its properties |
| `ReplaceInlineCode.ScanSpaceStep` | src/general/replace-inline-code-with-function-call/example.js:39-41 | a leading space is its own empty word: both the pipeline and the scan emit it and restart at a word boundary |
| `ReplaceInlineCode.ScanWordStep` | src/general/replace-inline-code-with-function-call/example.js:39-41 | a leading word character joins the first word and is upper-cased only at a word boundary, in the pipeline as in the scan |
| `ReplaceInlineCode.Count` | src/general/replace-inline-code-with-function-call/example.js:39 | the number of spaces; SplitWordCount states split(' ') gives one more word than it |
| `ReplaceInlineCode.FixtureChars` | src/general/replace-inline-code-with-function-call/example.js:23 | a text of 'hello world' capitalised character by character is 'Hello World' |
| `RemoveDeadCode.CalculateTotal1` | src/general/remove-dead-code/example.js:16-18 | the left fold of the prices equals the sum of the item prices |
| `RemoveDeadCode.Example1Before` | src/general/remove-dead-code/example.js:4-22 | with the unused formatCurrency1 present or removed the summary is the same: the order id and the sum of the prices |
| `RemoveDeadCode.Example1Fixture` | src/general/remove-dead-code/example.js:2-5 | order 123 with two items of 50 gives { orderId: 123, total: 100 } |
| `RemoveDeadCode.Example2Before` | src/general/remove-dead-code/example.js:27-33 | the statements after the return have no effect: it returns what the trimmed version returns |
| `RemoveDeadCode.Example2After` | src/general/remove-dead-code/example.js:35-38 | returns the user's status |
| `RemoveDeadCode.Example3Before` | src/general/remove-dead-code/example.js:43-48 | with the unused variables it returns what the trimmed version returns |
| `RemoveDeadCode.Example3After` | src/general/remove-dead-code/example.js:50-53 | the result carries the user's name and age |
| `RemoveDeadCode.EmailHasNoEffect` | src/general/remove-dead-code/example.js:45 | the email, read only by the unused variable, does not affect the result |
| `RemoveDeadCode.Example3Fixture` | src/general/remove-dead-code/example.js:41-44 | the fixture user gives { name: 'John', age: 30 } |
| `RemoveDeadCode.PriceOf` | src/general/remove-dead-code/example.js:17 | the reduce step's `item.price`; CalculateTotal1 states the total is the sum of these |
| `RemoveDeadCode.Example1After` | src/general/remove-dead-code/example.js:10-14 | the order id and calculateTotal1 of its items; Example1Before states both versions give this summary |
| `ReplaceConditionalWithPolymorphism.Plumage` | src/situational/replace-conditional-with-polymorphism/example.js:5-16 | each bird type's plumage: European 'average', African 'tired' above 2 coconuts, parrot 'scorched' above 100 volts, any other type 'unknown' |
| `ReplaceConditionalWithPolymorphism.AirSpeedVelocity` | src/situational/replace-conditional-with-polymorphism/example.js:18-29 | null exactly for an unknown type; 35 for the European swallow, 40 - 2 × coconuts for the African, 0 for a nailed parrot |
| `ReplaceConditionalWithPolymorphism.CreateBird` | src/situational/replace-conditional-with-polymorphism/example.js:45-100 | the subclass object keeps the bird's fields and its getters answer exactly what the two switches answer |
| `ReplaceConditionalWithPolymorphism.Example1Before` | src/situational/replace-conditional-with-polymorphism/example.js:4-42 | one summary per bird, in order, carrying its name and the switch's plumage |
| `ReplaceConditionalWithPolymorphism.Example1After` | src/situational/replace-conditional-with-polymorphism/example.js:44-113 | mapping through createBird and the getters gives the switch version's list for every list of birds |
| `ReplaceConditionalWithPolymorphism.Example1Fixture` | src/situational/replace-conditional-with-polymorphism/example.js:31-106 | the three fixture birds: average/35, tired/34, scorched/25 |
| `ReplaceConditionalWithPolymorphism.ProcessPayment` | src/situational/replace-conditional-with-polymorphism/example.js:119-146 | the processing time of each type, no fee for a bank transfer, and the 'Unknown payment method' record for any other type |
| `ReplaceConditionalWithPolymorphism.CanRefund` | src/situational/replace-conditional-with-polymorphism/example.js:148-159 | refundable exactly for PayPal and for a credit card of at most 5000 |
| `ReplaceConditionalWithPolymorphism.CreatePayment` | src/situational/replace-conditional-with-polymorphism/example.js:174-261 | the subclass object keeps the amount and its four getters answer what processPayment and canRefund answer |
| `ReplaceConditionalWithPolymorphism.Example2Before` | src/situational/replace-conditional-with-polymorphism/example.js:118-171 | one view per payment, in order, with canRefund's answer |
| `ReplaceConditionalWithPolymorphism.Example2After` | src/situational/replace-conditional-with-polymorphism/example.js:173-275 | the class version gives the switch version's list for every list of payments |
| `ReplaceConditionalWithPolymorphism.Example2Fixture` | src/situational/replace-conditional-with-polymorphism/example.js:161-267 | fees 3, 1.75 and 0; the first two refundable and the bank transfer not |
| `ReplaceConditionalWithPolymorphism.CalculatePrice` | src/situational/replace-conditional-with-polymorphism/example.js:281-294 | an unknown or standard type pays the base price; premium pays 1.5 × base |
| `ReplaceConditionalWithPolymorphism.GetDiscount` | src/situational/replace-conditional-with-polymorphism/example.js:296-309 | 20 exactly for an in-season seasonal product, 10 exactly for a bulk order above 10, else 0 |
| `ReplaceConditionalWithPolymorphism.CreatePricingStrategy` | src/situational/replace-conditional-with-polymorphism/example.js:326-393 | the strategy object keeps the product and its price and discount getters answer what the two switches answer |
| `ReplaceConditionalWithPolymorphism.Example3Before` | src/situational/replace-conditional-with-polymorphism/example.js:280-323 | one price view per product, in order, carrying its name |
| `ReplaceConditionalWithPolymorphism.Example3After` | src/situational/replace-conditional-with-polymorphism/example.js:325-407 | the strategy version gives the switch version's list for every list of products |
| `ReplaceConditionalWithPolymorphism.Example3Fixture` | src/situational/replace-conditional-with-polymorphism/example.js:311-400 | Widget 100/0, Gadget 300/0, Apple 40/20, Screws 0.9/10 |
| `ReplaceConditionalWithPolymorphism.Bird.Plumage` | src/situational/replace-conditional-with-polymorphism/example.js:45-87 | the plumage getter of Bird and its three subclasses; CreateBird states it answers what the plumage switch answers |
| `ReplaceConditionalWithPolymorphism.Bird.AirSpeedVelocity` | src/situational/replace-conditional-with-polymorphism/example.js:45-87 | the airSpeedVelocity getter of Bird and its subclasses; CreateBird states it answers what the switch answers |
| `ReplaceConditionalWithPolymorphism.SummarizeRecord` | src/situational/replace-conditional-with-polymorphism/example.js:37-41 | the name, plumage and speed of one bird through the switches; Example1Before states the list it builds |
| `ReplaceConditionalWithPolymorphism.SummarizeBird` | src/situational/replace-conditional-with-polymorphism/example.js:108-112 | the same view through the class getters; Example1After states it equals the switch version's list |
| `ReplaceConditionalWithPolymorphism.Payment.Fee` | src/situational/replace-conditional-with-polymorphism/example.js:174-248 | the fee getter of Payment and its subclasses; CreatePayment states it answers what processPayment answers |
| `ReplaceConditionalWithPolymorphism.Payment.ProcessingTime` | src/situational/replace-conditional-with-polymorphism/example.js:174-248 | the processingTime getter; CreatePayment states it answers what processPayment answers |
| `ReplaceConditionalWithPolymorphism.Payment.Message` | src/situational/replace-conditional-with-polymorphism/example.js:174-248 | the message getter; CreatePayment states it answers what processPayment answers |
| `ReplaceConditionalWithPolymorphism.Payment.CanRefund` | src/situational/replace-conditional-with-polymorphism/example.js:174-248 | the canRefund getter; CreatePayment states it answers what the canRefund switch answers |
| `ReplaceConditionalWithPolymorphism.ViewRecord` | src/situational/replace-conditional-with-polymorphism/example.js:167-170 | processPayment's fields with canRefund added; Example2Before states the list it builds |
| `ReplaceConditionalWithPolymorphism.ViewPayment` | src/situational/replace-conditional-with-polymorphism/example.js:269-274 | the same view through the class getters; Example2After states it equals the switch version's list |
| `ReplaceConditionalWithPolymorphism.CreateFromRecord` | src/situational/replace-conditional-with-polymorphism/example.js:250-261 | createPayment applied to a payment record; Example2After states the views it yields match the switch version's |
| `ReplaceConditionalWithPolymorphism.PricingStrategy.Price` | src/situational/replace-conditional-with-polymorphism/example.js:326-378 | the price getter of PricingStrategy and its subclasses; CreatePricingStrategy states it answers what calculatePrice answers |
| `ReplaceConditionalWithPolymorphism.PricingStrategy.Discount` | src/situational/replace-conditional-with-polymorphism/example.js:326-378 | the discount getter; CreatePricingStrategy states it answers what getDiscount answers |
| `ReplaceConditionalWithPolymorphism.PriceRecord` | src/situational/replace-conditional-with-polymorphism/example.js:318-322 | the name, price and discount through the switches; Example3Before states the list it builds |
| `ReplaceConditionalWithPolymorphism.PriceStrategy` | src/situational/replace-conditional-with-polymorphism/example.js:402-406 | the same view through the strategy getters; Example3After states it equals the switch version's list |
| `Strategy.ProcessByMethod` | src/situational/strategy/example.js:14-40 | a result exactly for creditCard, paypal and crypto (undefined otherwise), carrying the method and amount, with total = amount + fee |
| `Strategy.PaymentProcessorBefore.constructor` | src/situational/strategy/example.js:6-8 | the default payment method is creditCard |
| `Strategy.PaymentProcessorBefore.SetPaymentMethod` | src/situational/strategy/example.js:10-12 | the method becomes the argument |
| `Strategy.PaymentStrategy.Process` | src/situational/strategy/example.js:58-98 | the base class throws 'process() must be implemented by subclass'; each subclass returns a result with total = amount + fee |
| `Strategy.PaymentStrategiesAgree` | src/situational/strategy/example.js:14-98 | a known tag's strategy returns what the if-chain returns; unknown tags are exactly the ones with no strategy |
| `Strategy.PaymentProcessor.ProcessPayment` | src/situational/strategy/example.js:109-111 | answers as the current strategy: the base strategy's error, otherwise the amount with total = amount + fee, and exactly the string-tag processor's result for that strategy's tag |
| `Strategy.PaymentProcessor.constructor` | src/situational/strategy/example.js:101-103 | holds the given strategy |
| `Strategy.PaymentProcessor.SetStrategy` | src/situational/strategy/example.js:105-107 | the strategy becomes the argument |
| `Strategy.Example1Before` | src/situational/strategy/example.js:4-55 | each result is computed with the method set just before it: creditCard 100, paypal 50, crypto 200; none is undefined |
| `Strategy.Example1After` | src/situational/strategy/example.js:57-126 | the strategy processor returns the same three results |
| `Strategy.CompressByAlgorithm` | src/situational/strategy/example.js:141-164 | a result exactly for zip, gzip and bzip2, whose original length is the data's and whose compressed length lies between 0 and it; ratios 40%, 50%, 60% |
| `Strategy.FileCompressorBefore.constructor` | src/situational/strategy/example.js:133-135 | the default algorithm is zip |
| `Strategy.FileCompressorBefore.SetAlgorithm` | src/situational/strategy/example.js:137-139 | the algorithm becomes the argument |
| `Strategy.CompressionStrategy.Compress` | src/situational/strategy/example.js:183-220 | the base class throws 'compress() must be implemented by subclass'; each subclass reports the data's length as original |
| `Strategy.CompressionStrategiesAgree` | src/situational/strategy/example.js:141-220 | a known algorithm's strategy returns what the if-chain returns; unknown names have no strategy |
| `Strategy.FileCompressor.Compress` | src/situational/strategy/example.js:231-233 | answers as the current strategy: the base strategy's error, otherwise the input's length and a compressed size no larger, and exactly the string-tag compressor's result for that strategy's algorithm |
| `Strategy.FileCompressor.constructor` | src/situational/strategy/example.js:223-225 | holds the given strategy |
| `Strategy.FileCompressor.SetStrategy` | src/situational/strategy/example.js:227-229 | the strategy becomes the argument |
| `Strategy.Repeat` | src/situational/strategy/example.js:168 | 'x'.repeat(n) has length n |
| `Strategy.Example2Before` | src/situational/strategy/example.js:131-180 | 1000 characters compress to 600, 500 and 400 under zip, gzip and bzip2 |
| `Strategy.Example2After` | src/situational/strategy/example.js:182-249 | the strategy compressor returns the same three results |
| `Strategy.CostByMethod` | src/situational/strategy/example.js:264-284 | a quote exactly for standard, express and overnight, carrying the method, with 5, 2 and 1 estimated days |
| `Strategy.ShippingCalculatorBefore.constructor` | src/situational/strategy/example.js:256-258 | the default method is standard |
| `Strategy.ShippingCalculatorBefore.SetMethod` | src/situational/strategy/example.js:260-262 | the method becomes the argument |
| `Strategy.ShippingStrategy.CalculateCost` | src/situational/strategy/example.js:302-336 | the base class throws 'calculateCost() must be implemented by subclass'; the subclasses do not |
| `Strategy.ShippingStrategiesAgree` | src/situational/strategy/example.js:264-336 | a known method's strategy returns what the if-chain returns; unknown methods have no strategy |
| `Strategy.ShippingCalculator.CalculateCost` | src/situational/strategy/example.js:347-349 | answers as the current strategy: the base strategy's error, otherwise exactly the string-tag calculator's quote for that strategy's method |
| `Strategy.ShippingCalculator.constructor` | src/situational/strategy/example.js:339-341 | holds the given strategy |
| `Strategy.ShippingCalculator.SetStrategy` | src/situational/strategy/example.js:343-345 | the strategy becomes the argument |
| `Strategy.Example3Before` | src/situational/strategy/example.js:254-299 | weight 10 over distance 100 costs 15, 30 and 70 with 5, 2 and 1 days |
| `Strategy.Example3After` | src/situational/strategy/example.js:301-364 | the strategy calculator returns the same three quotes |
| `Strategy.Charge` | src/situational/strategy/example.js:17-22 | a result whose total is the amount plus the fee; ProcessByMethod and PaymentStrategy.Process state total == amount + fee |
| `Strategy.PaymentProcessorBefore.ProcessPayment` | src/situational/strategy/example.js:14-40 | the if-chain on the current payment method; Example1Before states each result follows the method set just before it |
| `Strategy.PaymentStrategyFor` | src/situational/strategy/example.js:114-123 | the strategy object that replaces each payment-method tag; PaymentStrategiesAgree states a tag and its strategy give the same result |
| `Strategy.PaymentTagsAgree` | src/situational/strategy/example.js:14-98 | for every tag with a strategy, the strategy's result is the if-chain's result |
| `Strategy.FileCompressorBefore.Compress` | src/situational/strategy/example.js:141-164 | the if-chain on the current algorithm; Example2Before states each result follows the algorithm set just before it |
| `Strategy.CompressionStrategyFor` | src/situational/strategy/example.js:236-246 | the strategy object that replaces each algorithm name; CompressionStrategiesAgree states a name and its strategy give the same result |
| `Strategy.CompressionTagsAgree` | src/situational/strategy/example.js:141-220 | for every algorithm with a strategy, the strategy's result is the if-chain's result |
| `Strategy.ShippingCalculatorBefore.CalculateCost` | src/situational/strategy/example.js:264-284 | the if-chain on the current shipping method; Example3Before states each quote follows the method set just before it |
| `Strategy.ShippingStrategyFor` | src/situational/strategy/example.js:351-360 | the strategy object that replaces each shipping-method name; ShippingStrategiesAgree states a name and its strategy give the same quote |
| `Strategy.ShippingTagsAgree` | src/situational/strategy/example.js:264-336 | for every shipping method with a strategy, the strategy's quote is the if-chain's quote |
| `ExtractClass.PersonBefore.TelephoneNumber` | src/situational/extract-class/example.js:13 | the text is '(', the area code, ') ', the number, in that order and nothing else |
| `ExtractClass.TelephoneNumber.ToString` | src/situational/extract-class/example.js:36 | the same layout: '(', the area code, ') ', the number |
| `ExtractClass.NewPerson` | src/situational/extract-class/example.js:40-48 | the extracted person answers name, officeAreaCode and officeNumber with the constructor's arguments |
| `ExtractClass.Example1Before` | src/situational/extract-class/example.js:4-25 | the result carries the name, area code and number given |
| `ExtractClass.Example1After` | src/situational/extract-class/example.js:27-58 | the delegating person gives the Before view for every name, area code and number |
| `ExtractClass.TelephoneNumberDetermines` | src/situational/extract-class/example.js:36 | for area codes without ')', the formatted number determines both parts: toString is injective |
| `ExtractClass.FirstCloseParen` | src/situational/extract-class/example.js:36 | the first ')' in the formatted number comes right after the area code |
| `ExtractClass.IndexOf` | src/situational/extract-class/example.js:36 | the position of the first occurrence of a character, or the length when there is none |
| `ExtractClass.Example1Fixture` | src/situational/extract-class/example.js:18-51 | John Doe, 555, 1234 gives telephone '(555) 1234' |
| `ExtractClass.EmployeeBefore.SendNotification` | src/situational/extract-class/example.js:77-79 | the text starts with 'Sending to ' and the email and ends with the message |
| `ExtractClass.ContactInfo.SendNotification` | src/situational/extract-class/example.js:104-106 | the same: starts with 'Sending to ' and the email, ends with the message |
| `ExtractClass.NewEmployee` | src/situational/extract-class/example.js:110-118 | the extracted employee answers name, email, phone and address with the constructor's arguments |
| `ExtractClass.NotificationsAgree` | src/situational/extract-class/example.js:77-122 | delegating to ContactInfo gives the same notification text |
| `ExtractClass.Example2Before` | src/situational/extract-class/example.js:63-90 | the view carries the four fields and a notification addressed to the email |
| `ExtractClass.Example2After` | src/situational/extract-class/example.js:92-133 | the delegating employee gives the Before view for every input |
| `ExtractClass.Example2Fixture` | src/situational/extract-class/example.js:82-88 | 'Sending to jane@example.com and 555-0100: Meeting at 3pm' |
| `ExtractClass.ProjectBefore.Duration` | src/situational/extract-class/example.js:152-154 | start plus duration is the end date |
| `ExtractClass.Timeline.Duration` | src/situational/extract-class/example.js:185-187 | start plus duration is the end date |
| `ExtractClass.NewProject` | src/situational/extract-class/example.js:195-203 | the extracted project answers name, startDate, endDate and milestones with the constructor's arguments |
| `ExtractClass.OverdueIsPastDuration` | src/situational/extract-class/example.js:156-208 | both versions agree on isOverdue, and a project is overdue exactly when more than its duration has passed since its start |
| `ExtractClass.Example3Before` | src/situational/extract-class/example.js:138-171 | the view carries the given fields, start + duration = end, and isOverdue exactly after the end date |
| `ExtractClass.Example3After` | src/situational/extract-class/example.js:173-221 | the delegating project gives the Before view for every input |
| `ExtractClass.Example3Fixture` | src/situational/extract-class/example.js:161-212 | 2024-01-01 to 2024-06-01 lasts 152 days and is overdue on 2024-07-01 |
| `ExtractClass.Person.TelephoneNumber` | src/situational/extract-class/example.js:46 | delegates to TelephoneNumber.toString; Example1After states it gives the Before getter's text |
| `ExtractClass.Person.OfficeAreaCode` | src/situational/extract-class/example.js:47 | delegates to the telephone's area code; NewPerson states it returns the constructor's argument |
| `ExtractClass.Person.OfficeNumber` | src/situational/extract-class/example.js:48 | delegates to the telephone's number; NewPerson states it returns the constructor's argument |
| `ExtractClass.Employee.Email` | src/situational/extract-class/example.js:116 | delegates to the contact info; NewEmployee states it returns the constructor's argument |
| `ExtractClass.Employee.Phone` | src/situational/extract-class/example.js:117 | delegates to the contact info; NewEmployee states it returns the constructor's argument |
| `ExtractClass.Employee.Address` | src/situational/extract-class/example.js:118 | delegates to the contact info; NewEmployee states it returns the constructor's argument |
| `ExtractClass.Employee.SendNotification` | src/situational/extract-class/example.js:120-122 | delegates to ContactInfo.sendNotification; NotificationsAgree states it gives the Before text |
| `ExtractClass.ProjectBefore.IsOverdue` | src/situational/extract-class/example.js:156-158 | a date after the end date; OverdueIsPastDuration states it means more than the duration has passed |
| `ExtractClass.Timeline.IsOverdue` | src/situational/extract-class/example.js:189-191 | a date after the end date; OverdueIsPastDuration states both versions agree |
| `ExtractClass.Project.StartDate` | src/situational/extract-class/example.js:201 | delegates to the timeline; NewProject states it returns the constructor's argument |
| `ExtractClass.Project.EndDate` | src/situational/extract-class/example.js:202 | delegates to the timeline; NewProject states it returns the constructor's argument |
| `ExtractClass.Project.Milestones` | src/situational/extract-class/example.js:203 | delegates to the timeline; NewProject states it returns the constructor's argument |
| `ExtractClass.Project.Duration` | src/situational/extract-class/example.js:204 | delegates to Timeline.duration, whose ensures gives start + duration = end |
| `ExtractClass.Project.IsOverdue` | src/situational/extract-class/example.js:206-208 | delegates to the timeline; Example3After states it gives the Before answer |
| `CombineFunctions.BaseCharge` | src/situational/combine-functions-into-class/example.js:4-20 | the rate 0.15 times the quantity, whatever the month and year |
| `CombineFunctions.TaxableCharge` | src/situational/combine-functions-into-class/example.js:9-24 | never negative and never below base - 20: either 0 or exactly the excess over the threshold of 20 |
| `CombineFunctions.CalculateBaseCharge` | src/situational/combine-functions-into-class/example.js:26-28 | 0.15 times the quantity, the same value as baseCharge |
| `CombineFunctions.Reading.BaseCharge` | src/situational/combine-functions-into-class/example.js:51-53 | the getter computes 0.15 times the quantity, as the free function does |
| `CombineFunctions.Reading.TaxableCharge` | src/situational/combine-functions-into-class/example.js:55-57 | the getter is 0 or the excess over 20, never negative |
| `CombineFunctions.Example1Before` | src/situational/combine-functions-into-class/example.js:30-35 | taxable is non-negative and at least base - 20 |
| `CombineFunctions.Example1After` | src/situational/combine-functions-into-class/example.js:38-70 | the class built from the reading gives the free functions' base and taxable for every reading |
| `CombineFunctions.Example1Fixture` | src/situational/combine-functions-into-class/example.js:13-15 | 150 units give base 22.5 and taxable 2.5 |
| `CombineFunctions.SubtotalNonNegative` | src/situational/combine-functions-into-class/example.js:76-78 | with no negative price or quantity the subtotal is non-negative |
| `CombineFunctions.LineAmountNonNegative` | src/situational/combine-functions-into-class/example.js:77 | a line with non-negative price and quantity has a non-negative amount |
| `CombineFunctions.CalculateSubtotal` | src/situational/combine-functions-into-class/example.js:76-78 | the reduce over price × quantity; non-negative when no line is negative |
| `CombineFunctions.CalculateTax` | src/situational/combine-functions-into-class/example.js:80-83 | subtotal × tax rate |
| `CombineFunctions.CalculateTotal` | src/situational/combine-functions-into-class/example.js:85-87 | subtotal × (1 + tax rate) plus the shipping fee |
| `CombineFunctions.FormatInvoice` | src/situational/combine-functions-into-class/example.js:89-96 | its total is its own subtotal + tax + shipping, and it carries the due date |
| `CombineFunctions.Invoice.Subtotal` | src/situational/combine-functions-into-class/example.js:127-129 | the getter's subtotal is non-negative when no line is negative |
| `CombineFunctions.Invoice.Format` | src/situational/combine-functions-into-class/example.js:139-146 | the formatted total is subtotal + tax + shipping |
| `CombineFunctions.Example2Before` | src/situational/combine-functions-into-class/example.js:98-111 | the returned total equals the formatted total |
| `CombineFunctions.Example2After` | src/situational/combine-functions-into-class/example.js:114-162 | the Invoice class gives the free functions' result for every invoice |
| `CombineFunctions.Example2Fixture` | src/situational/combine-functions-into-class/example.js:99-107 | subtotal 35, tax 2.8, total 47.8, due 2025-12-01 |
| `CombineFunctions.MonthName` | src/situational/combine-functions-into-class/example.js:173-175 | the month's name for 1 to 12, the text 'undefined' outside |
| `CombineFunctions.DaysInMonth` | src/situational/combine-functions-into-class/example.js:178-188 | a value exactly for months 1 to 12, between 28 and 31; February has 29 exactly in a leap year and 28 otherwise |
| `CombineFunctions.LeapYearPeriod` | src/situational/combine-functions-into-class/example.js:178-180 | the leap-year rule repeats every 400 years |
| `CombineFunctions.DateFormatter.DaysInMonth` | src/situational/combine-functions-into-class/example.js:224-230 | the getter has a value exactly for months 1 to 12 |
| `CombineFunctions.Example3Before` | src/situational/combine-functions-into-class/example.js:190-196 | days is defined exactly for months 1 to 12 |
| `CombineFunctions.Example3After` | src/situational/combine-functions-into-class/example.js:199-239 | the DateFormatter class gives the free functions' short, long and days for every date |
| `CombineFunctions.Example3Fixture` | src/situational/combine-functions-into-class/example.js:191-234 | 2/15/2024 gives '2/15/2024', 'February 15, 2024' and 29 days |
| `CombineFunctions.BaseRate` | src/situational/combine-functions-into-class/example.js:4-7 | 0.15 for every month and year; BaseCharge's ensures states the charge built on it |
| `CombineFunctions.TaxThreshold` | src/situational/combine-functions-into-class/example.js:9-11 | 20 for every year; TaxableCharge's ensures states the excess over it |
| `CombineFunctions.AcquireReading` | src/situational/combine-functions-into-class/example.js:13-15 | the reading of 150 units for 'ivan' in May 2024; Example1Fixture states its charges |
| `CombineFunctions.Reading.CalculateBaseCharge` | src/situational/combine-functions-into-class/example.js:59-61 | the getter returns baseCharge, whose ensures gives 0.15 times the quantity |
| `CombineFunctions.NewReading` | src/situational/combine-functions-into-class/example.js:39-44 | copies the four fields; Example1After states that the class then gives the free functions' charges |
| `CombineFunctions.LineAmount` | src/situational/combine-functions-into-class/example.js:77 | price × quantity, the reduce step; LineAmountNonNegative and SubtotalNonNegative state its sign |
| `CombineFunctions.Invoice.Tax` | src/situational/combine-functions-into-class/example.js:131-133 | subtotal × tax rate; Example2After states it equals calculateTax for every invoice |
| `CombineFunctions.Invoice.Total` | src/situational/combine-functions-into-class/example.js:135-137 | subtotal + tax + shipping; Invoice.Format and Example2After state the total it gives |
| `CombineFunctions.NewInvoice` | src/situational/combine-functions-into-class/example.js:115-120 | copies the four fields; Example2After states the class then gives the free functions' record |
| `CombineFunctions.FormatShortDate` | src/situational/combine-functions-into-class/example.js:168-170 | month/day/year; Example3After and Example3Fixture state its value |
| `CombineFunctions.FormatLongDate` | src/situational/combine-functions-into-class/example.js:172-176 | month name, day and year; Example3After and Example3Fixture state its value |
| `CombineFunctions.IsLeapYear` | src/situational/combine-functions-into-class/example.js:178-180 | the Gregorian rule; DaysInMonth and LeapYearPeriod state its consequences |
| `CombineFunctions.DateFormatter.ShortFormat` | src/situational/combine-functions-into-class/example.js:210-212 | the getter; Example3After states it equals formatShortDate for every date |
| `CombineFunctions.DateFormatter.LongFormat` | src/situational/combine-functions-into-class/example.js:214-218 | the getter; Example3After states it equals formatLongDate for every date |
| `CombineFunctions.DateFormatter.IsLeapYear` | src/situational/combine-functions-into-class/example.js:220-222 | the getter; Example3After states the days it yields equal daysInMonth's |
| `CombineFunctions.NewDateFormatter` | src/situational/combine-functions-into-class/example.js:200-204 | copies month, day and year; Example3After states the class then answers as the free functions |
| `IntroduceSpecialCase.Example1Before` | src/situational/introduce-special-case/example.js:4-23 | the 'unknown' sentinel reads as occupant / basic / no payments; a real customer reads as its own fields |
| `IntroduceSpecialCase.Example1After` | src/situational/introduce-special-case/example.js:25-64 | the UnknownCustomer object reads as occupant / basic / no payments; a Customer reads as its own fields |
| `IntroduceSpecialCase.SpecialCaseCustomer` | src/situational/introduce-special-case/example.js:25-64 | replacing the sentinel with UnknownCustomer and a record with Customer makes the getter version return the sentinel version's view; only the special case reports isUnknown |
| `IntroduceSpecialCase.Example1Fixture` | src/situational/introduce-special-case/example.js:17-58 | the fixture gives { name: 'occupant', billingPlan: 'basic', paymentHistory: [] } in both versions |
| `IntroduceSpecialCase.FetchDataBefore` | src/situational/introduce-special-case/example.js:70-75 | an error object exactly when the connection is null |
| `IntroduceSpecialCase.Connection.Fetch` | src/situational/introduce-special-case/example.js:104-116 | data exactly for a live connection, reading 'Data from ' followed by the url; the offline object returns the error |
| `IntroduceSpecialCase.Example2Before` | src/situational/introduce-special-case/example.js:69-91 | a null connection gives the error, 'offline' and latency 0; a live one gives 'Data from ' plus the url and its own status and latency |
| `IntroduceSpecialCase.Example2After` | src/situational/introduce-special-case/example.js:93-137 | the OfflineConnection object gives the error, 'offline' and latency 0; a Connection gives 'Data from ' plus the url and its own status and latency |
| `IntroduceSpecialCase.SpecialCaseConnection` | src/situational/introduce-special-case/example.js:93-137 | replacing null with OfflineConnection makes the getter version return the null-check version's view for every url; only it reports isOffline |
| `IntroduceSpecialCase.Example2Fixture` | src/situational/introduce-special-case/example.js:85-131 | the fixture gives the same error/offline/0 view in both versions |
| `IntroduceSpecialCase.Example3Before` | src/situational/introduce-special-case/example.js:142-161 | a null order reads as total 0, 'not found', no items; a real order as its own fields |
| `IntroduceSpecialCase.Example3After` | src/situational/introduce-special-case/example.js:163-202 | the NullOrder object reads as total 0, 'not found', no items; an Order reads as its own fields |
| `IntroduceSpecialCase.SpecialCaseOrder` | src/situational/introduce-special-case/example.js:163-202 | replacing null with NullOrder makes the getter version return the null-check version's view; only it reports isNull |
| `IntroduceSpecialCase.Example3Fixture` | src/situational/introduce-special-case/example.js:155-196 | the fixture gives { total: 0, status: 'not found', items: [] } in both versions |
| `IntroduceSpecialCase.GetCustomerNameBefore` | src/situational/introduce-special-case/example.js:5-7 | 'occupant' for the 'unknown' sentinel, else the name; Example1Before and SpecialCaseCustomer state the view it builds |
| `IntroduceSpecialCase.GetCustomerBillingPlanBefore` | src/situational/introduce-special-case/example.js:9-11 | 'basic' for the sentinel, else the plan; Example1Before and SpecialCaseCustomer state the view it builds |
| `IntroduceSpecialCase.GetCustomerPaymentHistoryBefore` | src/situational/introduce-special-case/example.js:13-15 | no payments for the sentinel, else the history; Example1Before and SpecialCaseCustomer state the view it builds |
| `IntroduceSpecialCase.Customer.Name` | src/situational/introduce-special-case/example.js:33-40 | the name getter of Customer and UnknownCustomer; Example1After and SpecialCaseCustomer state it answers as the sentinel check |
| `IntroduceSpecialCase.Customer.BillingPlan` | src/situational/introduce-special-case/example.js:34-41 | the billingPlan getter of both classes; Example1After and SpecialCaseCustomer state it answers as the sentinel check |
| `IntroduceSpecialCase.Customer.PaymentHistory` | src/situational/introduce-special-case/example.js:35-42 | the paymentHistory getter of both classes; Example1After and SpecialCaseCustomer state it answers as the sentinel check |
| `IntroduceSpecialCase.Customer.IsUnknown` | src/situational/introduce-special-case/example.js:36-43 | false for a Customer, true for UnknownCustomer; SpecialCaseCustomer states only the special case reports it |
| `IntroduceSpecialCase.ConnectionData.Fetch` | src/situational/introduce-special-case/example.js:104-106 | 'Data from ' plus the url, as a live connection answers; FetchDataBefore and Example2Before state when it is called |
| `IntroduceSpecialCase.GetConnectionStatusBefore` | src/situational/introduce-special-case/example.js:77-79 | 'offline' for null, else the status; Example2Before and SpecialCaseConnection state the view it builds |
| `IntroduceSpecialCase.GetLatencyBefore` | src/situational/introduce-special-case/example.js:81-83 | 0 for null, else the latency; Example2Before and SpecialCaseConnection state the view it builds |
| `IntroduceSpecialCase.Connection.Status` | src/situational/introduce-special-case/example.js:100-110 | the status getter of Connection and OfflineConnection; SpecialCaseConnection states it answers as the null check |
| `IntroduceSpecialCase.Connection.Latency` | src/situational/introduce-special-case/example.js:101-111 | the latency getter of both classes; SpecialCaseConnection states it answers as the null check |
| `IntroduceSpecialCase.Connection.IsOffline` | src/situational/introduce-special-case/example.js:102-112 | false for a Connection, true for OfflineConnection; SpecialCaseConnection states only the offline object reports it |
| `IntroduceSpecialCase.GetOrderTotalBefore` | src/situational/introduce-special-case/example.js:143-145 | 0 for null, else the total; Example3Before and SpecialCaseOrder state the view it builds |
| `IntroduceSpecialCase.GetOrderStatusBefore` | src/situational/introduce-special-case/example.js:147-149 | 'not found' for null, else the status; Example3Before and SpecialCaseOrder state the view it builds |
| `IntroduceSpecialCase.GetOrderItemsBefore` | src/situational/introduce-special-case/example.js:151-153 | no items for null, else the items; Example3Before and SpecialCaseOrder state the view it builds |
| `IntroduceSpecialCase.Order.Total` | src/situational/introduce-special-case/example.js:171-178 | the total getter of Order and NullOrder; SpecialCaseOrder states it answers as the null check |
| `IntroduceSpecialCase.Order.Status` | src/situational/introduce-special-case/example.js:172-179 | the status getter of both classes; SpecialCaseOrder states it answers as the null check |
| `IntroduceSpecialCase.Order.Items` | src/situational/introduce-special-case/example.js:173-180 | the items getter of both classes; SpecialCaseOrder states it answers as the null check |
| `IntroduceSpecialCase.Order.IsNull` | src/situational/introduce-special-case/example.js:174-181 | false for an Order, true for NullOrder; SpecialCaseOrder states only NullOrder reports it |
| `ExtractFunction.PrintBanner` | src/situational/extract-function/example.js:4-8 | appends the three banner lines to the captured output, after what was there |
| `ExtractFunction.OutstandingAddOrder` | src/situational/extract-function/example.js:10-12 | one more order raises the outstanding amount by exactly its amount |
| `ExtractFunction.Example1Before` | src/situational/extract-function/example.js:14-31 | the captured output is the banner, then the customer's name, then the sum of the order amounts |
| `ExtractFunction.PrintDetails` | src/situational/extract-function/example.js:43-46 | appends the name line and the amount line to the captured output |
| `ExtractFunction.Example1After` | src/situational/extract-function/example.js:33-54 | the extracted printDetails gives the same captured output, for every invoice |
| `ExtractFunction.Example1Fixture` | src/situational/extract-function/example.js:15-18 | BigCo with orders of 100 and 200 owes 300 and prints 'name: BigCo', 'amount: 300' |
| `ExtractFunction.Example2Before` | src/situational/extract-function/example.js:59-74 | keeps exactly the users that are 18 or older with '@' and '.' in the email, in order |
| `ExtractFunction.Example2After` | src/situational/extract-function/example.js:76-95 | the loop calling isValidUser keeps the same users, in order |
| `ExtractFunction.Example2Fixture` | src/situational/extract-function/example.js:60-81 | Alice and Carol are kept, Bob is not |
| `ExtractFunction.TransformItem` | src/situational/extract-function/example.js:149-155 | keeps the id, upper-cases the name (same length) and raises the price by a tenth |
| `ExtractFunction.Example3Before` | src/situational/extract-function/example.js:100-126 | 'API request failed' for any status but 200, then 'Invalid response format' when data.items is missing; otherwise success with item k transformed from input item k |
| `ExtractFunction.ValidateResponse` | src/situational/extract-function/example.js:139-147 | a non-200 status fails with 'API request failed' before the shape is examined; missing data or items fails with 'Invalid response format'; valid otherwise |
| `ExtractFunction.TransformItems` | src/situational/extract-function/example.js:149-155 | one transformed item per input item, in order |
| `ExtractFunction.Example3After` | src/situational/extract-function/example.js:128-164 | the extracted validate/transform version gives the inline version's result for every response |
| `ExtractFunction.StatusCheckedFirst` | src/situational/extract-function/example.js:140-160 | a non-200 response fails with 'API request failed' whatever its body |
| `ExtractFunction.CalculateOutstanding` | src/situational/extract-function/example.js:10-12 | the reduce over the order amounts from 0; OutstandingAddOrder states one more order adds its amount, and Example1Fixture gives 300 for BigCo |
| `ExtractFunction.IsValidUser` | src/situational/extract-function/example.js:83-85 | age at least 18 and an e-mail holding '@' and '.'; Example2Before and Example2After state the users it keeps |
| `ExtractFunction.HasItems` | src/situational/extract-function/example.js:115 | the shape test `data && data.items`; Example3Before states it decides between success and 'Invalid response format' |
| `ExtractFunction.AmountOf` | src/situational/extract-function/example.js:11 | one order's amount; OutstandingAddOrder states the reduce over these rises by exactly the added order's amount |
| `ExtractFunction.DetailLines` | src/situational/extract-function/example.js:26-27 | the 'name: ' and 'amount: ' lines; Example1Before and PrintDetails state the output holds exactly these after the banner |
| `ReplaceMagicLiteral.CalculateDiscountBefore` | src/situational/replace-magic-literal/example.js:6-11 | 10% of the total strictly above 100 units, 0 otherwise |
| `ReplaceMagicLiteral.Example1Before` | src/situational/replace-magic-literal/example.js:5-21 | free shipping exactly above 100 units; no free shipping means no discount |
| `ReplaceMagicLiteral.Example1After` | src/situational/replace-magic-literal/example.js:23-42 | the named constants give the literal version's terms for every order |
| `ReplaceMagicLiteral.ThresholdIsStrict` | src/situational/replace-magic-literal/example.js:7-35 | exactly 100 units earn nothing; 101 earn 10% and free shipping |
| `ReplaceMagicLiteral.Example1Fixture` | src/situational/replace-magic-literal/example.js:4 | 150 units for 1000 give { discount: 100, freeShipping: true } |
| `ReplaceMagicLiteral.HandleResponseBefore` | src/situational/replace-magic-literal/example.js:47-58 | data (the body) exactly for 200; 404 'Not found', 500 'Server error', anything else 'Unknown error' |
| `ReplaceMagicLiteral.Example2Before` | src/situational/replace-magic-literal/example.js:46-68 | success exactly when the result carries data |
| `ReplaceMagicLiteral.Example2After` | src/situational/replace-magic-literal/example.js:70-96 | the named status constants give the literal version's summary for every response |
| `ReplaceMagicLiteral.Example2Fixture` | src/situational/replace-magic-literal/example.js:45 | a 200 response with body John gives data John and success |
| `ReplaceMagicLiteral.CalculateDiscount` | src/situational/replace-magic-literal/example.js:27-32 | the discount with named constants; Example1After states it agrees with the literal version for every order |
| `ReplaceMagicLiteral.IsEligibleForFreeShipping` | src/situational/replace-magic-literal/example.js:34-36 | free shipping with the named threshold; Example1After states it agrees with the literal version for every order |
| `ReplaceMagicLiteral.HandleResponse` | src/situational/replace-magic-literal/example.js:75-86 | the handler with named status constants; Example2After states it agrees with the literal version for every response |
| `ReplaceMagicLiteral.IsSuccessful` | src/situational/replace-magic-literal/example.js:88-90 | success with the named HTTP_OK; Example2After states it agrees with the literal version for every response |
| `PreserveWholeObject.HeatingPlan.WithinRange` | src/situational/preserve-whole-object/example.js:34-37 | a non-empty range is within the plan exactly when both its ends lie in the plan's range |
| `PreserveWholeObject.WithinRangeAgrees` | src/situational/preserve-whole-object/example.js:10-37 | passing the range object gives the answer that passing its low and high ends gave |
| `PreserveWholeObject.WithinRangeIsContainment` | src/situational/preserve-whole-object/example.js:34-37 | for a non-empty range, withinRange holds exactly when every temperature of the range lies in the plan's range |
| `PreserveWholeObject.Example1After` | src/situational/preserve-whole-object/example.js:4-49 | the whole-object call gives the field-by-field call's answer for every room and plan |
| `PreserveWholeObject.Example1Fixture` | src/situational/preserve-whole-object/example.js:15-44 | 18..24 lies within 15..28 |
| `PreserveWholeObject.CreateOrderBefore` | src/situational/preserve-whole-object/example.js:55-65 | the order carries a customer built from the three fields, the items, and the sum of the item prices |
| `PreserveWholeObject.CreateOrder` | src/situational/preserve-whole-object/example.js:84-94 | the whole-customer signature builds the same order as the three-field signature |
| `PreserveWholeObject.OrderTotalSnoc` | src/situational/preserve-whole-object/example.js:92 | one more item adds its price to the total |
| `PreserveWholeObject.Example2Fixture` | src/situational/preserve-whole-object/example.js:67-107 | Widget 10 and Gadget 20 total 30, the same in both signatures |
| `PreserveWholeObject.Rectangle.Contains` | src/situational/preserve-whole-object/example.js:147-150 | inside both spans with the bounds included; only a non-empty rectangle contains a point |
| `PreserveWholeObject.CornersInside` | src/situational/preserve-whole-object/example.js:147-150 | the bounds are inclusive: both corners are inside and a point just right of the rectangle is not |
| `PreserveWholeObject.Example3After` | src/situational/preserve-whole-object/example.js:115-159 | contains(point) gives contains(x, y)'s answer for every point and rectangle |
| `PreserveWholeObject.Example3Fixture` | src/situational/preserve-whole-object/example.js:130-154 | (5, 10) is inside the rectangle (0, 0, 10, 20) |
| `PreserveWholeObject.InRange` | src/situational/preserve-whole-object/example.js:11 | a temperature between the range's bounds, inclusive; HeatingPlan.WithinRange and WithinRangeIsContainment are stated with it |
| `PreserveWholeObject.HeatingPlanBefore.WithinRange` | src/situational/preserve-whole-object/example.js:10-12 | the bottom at or above the plan's low and the top at or below its high; WithinRangeAgrees states the whole-object method gives the same answer |
| `PreserveWholeObject.Example1Before` | src/situational/preserve-whole-object/example.js:4-26 | pulls out low and high and asks the plan; Example1After states the whole-object call answers the same for every room and plan |
| `PreserveWholeObject.PriceOf` | src/situational/preserve-whole-object/example.js:63 | the reduce step's `item.price`; CreateOrderBefore and OrderTotalSnoc state the total built from it |
| `PreserveWholeObject.RectangleBefore.Contains` | src/situational/preserve-whole-object/example.js:124-127 | inside both spans, bounds included; Example3After states the whole-object method gives the same answer |
| `PreserveWholeObject.Example3Before` | src/situational/preserve-whole-object/example.js:115-136 | pulls out x and y and asks the rectangle; Example3After states the whole-object call answers the same for every point |
| `ExtractVariable.IsEligibleBefore` | src/situational/extract-variable/example.js:11-14 | eligible exactly when born at least 18 years before the first reading of the current year and joined at least 2 years before the second |
| `ExtractVariable.ReadingsStraddlingNewYear` | src/situational/extract-variable/example.js:11-14 | the two readings matter: read as 2022 then 2023, a member who joined in 2021 is eligible, which a single reading of 2022 denies |
| `ExtractVariable.IsEligible` | src/situational/extract-variable/example.js:11-32 | with one reading of the current year the extracted version answers as the inline one; eligible exactly when born at least 18 years and joined at least 2 years before that year |
| `ExtractVariable.EligibilityPersists` | src/situational/extract-variable/example.js:26-32 | once eligible, eligible in every later year |
| `ExtractVariable.Example1Fixture` | src/situational/extract-variable/example.js:5-24 | Alice (born 2000, joined 2020) is eligible from 2022 on |
| `ExtractVariable.CanAccessResourceBefore` | src/situational/extract-variable/example.js:48-52 | access exactly for an active admin holding write and delete whose last login is less than 30 days (2 592 000 000 ms) before now |
| `ExtractVariable.CanAccessResource` | src/situational/extract-variable/example.js:48-74 | the extracted variables, with the day count as a quotient, give the inline millisecond comparison's answer for every user and clock reading |
| `ExtractVariable.QuotientBelow` | src/situational/extract-variable/example.js:50-68 | a millisecond difference divided by a day's length is below 30 exactly when the difference is below 30 days' worth |
| `ExtractVariable.AccessNeedsAll` | src/situational/extract-variable/example.js:72-73 | access requires the admin role, an active account and both the write and delete permissions |
| `ExtractVariable.Example2Fixture` | src/situational/extract-variable/example.js:41-63 | an active admin with read/write/delete who logged in 5 days ago may access |
| `ExtractVariable.BuildApiUrlBefore` | src/situational/extract-variable/example.js:92-96 | the URL ends with '?' followed by the query string of key=value pairs joined by '&' |
| `ExtractVariable.BuildApiUrl` | src/situational/extract-variable/example.js:92-120 | the template-literal version builds the concatenation version's URL for every config, which starts with protocol://domain/api/ |
| `ExtractVariable.QueryStringOfTwo` | src/situational/extract-variable/example.js:95-117 | with two parameters the query string is key=value&key=value, in insertion order |
| `ExtractVariable.QueryStringFixture` | src/situational/extract-variable/example.js:89-108 | the fixture parameters give include=profile&format=json |
| `ExtractVariable.IdFixture` | src/situational/extract-variable/example.js:88-94 | the id 123 prints as '123' |
| `ExtractVariable.UrlHeadFixture` | src/situational/extract-variable/example.js:83-94 | the fixture's URL up to the '?' is https://api.example.com/api/v2/users/123? |
| `ExtractVariable.Example3Fixture` | src/situational/extract-variable/example.js:82-123 | the fixture URL is https://api.example.com/api/v2/users/123?include=profile&format=json |
| `ExtractVariable.KeyValue` | src/situational/extract-variable/example.js:95 | `key + '=' + value` for one parameter; QueryStringOfTwo and QueryStringFixture state the query string it builds |
| `ReplaceCommandWithFunction.Charge` | src/situational/replace-command-with-function/example.js:5-28 | the function returns what the command's execute returns; zero usage costs nothing |
| `ReplaceCommandWithFunction.ChargeIsLinear` | src/situational/replace-command-with-function/example.js:26-28 | the charge for u + v units is the charge for u plus the charge for v |
| `ReplaceCommandWithFunction.Example1Fixture` | src/situational/replace-command-with-function/example.js:16-31 | rate 0.15 for 100 units charges 15 |
| `ReplaceCommandWithFunction.FailedMessages` | src/situational/replace-command-with-function/example.js:50-54 | the messages of the failing rules, in rule order: empty exactly when every rule passes, and each message belongs to a failing rule |
| `ReplaceCommandWithFunction.ValidationOf` | src/situational/replace-command-with-function/example.js:55-79 | { valid: true } exactly when every rule passes; otherwise valid false with the non-empty list of failed messages |
| `ReplaceCommandWithFunction.DataValidator.constructor` | src/situational/replace-command-with-function/example.js:43-46 | stores the data and the rules |
| `ReplaceCommandWithFunction.DataValidator.Execute` | src/situational/replace-command-with-function/example.js:48-56 | the loop pushing the failed messages returns the validation of the data against the rules |
| `ReplaceCommandWithFunction.ValidateData` | src/situational/replace-command-with-function/example.js:72-80 | the function's loop returns the same validation as the command |
| `ReplaceCommandWithFunction.Example2Before` | src/situational/replace-command-with-function/example.js:41-69 | building the command and executing it returns the validation of the data |
| `ReplaceCommandWithFunction.Example2Fixture` | src/situational/replace-command-with-function/example.js:59-86 | the fixture applicant is valid; one with email 'test' and age 17 fails both rules, in rule order |
| `ReplaceCommandWithFunction.GenerateReport` | src/situational/replace-command-with-function/example.js:103-132 | the function returns what the command's execute returns for every format; json is the serialiser's output |
| `ReplaceCommandWithFunction.NoNewlineInNumber` | src/situational/replace-command-with-function/example.js:105 | a printed number holds no line break |
| `ReplaceCommandWithFunction.CsvReportLines` | src/situational/replace-command-with-function/example.js:104-127 | splitting a CSV report at line breaks gives back one 'name,value' line per row when no name holds a line break |
| `ReplaceCommandWithFunction.Example3Fixture` | src/situational/replace-command-with-function/example.js:113-139 | the fixture rows give 'Alice,100\nBob,200' |
| `ReplaceCommandWithFunction.ChargeCalculator.Execute` | src/situational/replace-command-with-function/example.js:11-13 | rate × usage; Charge states the function returns the same, and Example1Fixture gives 15 |
| `ReplaceCommandWithFunction.EmailHasAt` | src/situational/replace-command-with-function/example.js:61 | the first rule's test, an e-mail holding '@'; Example2Fixture states which applicants fail it |
| `ReplaceCommandWithFunction.AtLeastEighteen` | src/situational/replace-command-with-function/example.js:62 | the second rule's test, age at least 18; Example2Fixture states which applicants fail it |
| `ReplaceCommandWithFunction.CsvLine` | src/situational/replace-command-with-function/example.js:105 | `Object.values(row).join(',')` of a name-value row; CsvReportLines states the CSV splits back into these lines |
| `ReplaceCommandWithFunction.NameValueLine` | src/situational/replace-command-with-function/example.js:109 | `${row.name}: ${row.value}`; GenerateReport states the default format is built from it as the command does |
| `ReplaceCommandWithFunction.ReportGenerator.Execute` | src/situational/replace-command-with-function/example.js:103-110 | CSV, JSON or name-value text by format; GenerateReport states the function returns the same for every format |
| `ReplaceFunctionWithCommand.State.constructor` | src/situational/replace-function-with-command/example.js:4 | the module state starts at the given value |
| `ReplaceFunctionWithCommand.Calculate` | src/situational/replace-function-with-command/example.js:18-22 | adds the argument to the module state (a null state counts as 0) and returns the new value |
| `ReplaceFunctionWithCommand.CalculateCommand.constructor` | src/situational/replace-function-with-command/example.js:25-28 | stores the amount; no previous value yet |
| `ReplaceFunctionWithCommand.CalculateCommand.Execute` | src/situational/replace-function-with-command/example.js:30-34 | remembers the state it replaces, then adds its amount and returns the new value |
| `ReplaceFunctionWithCommand.CalculateCommand.Undo` | src/situational/replace-function-with-command/example.js:36-38 | puts back the remembered value |
| `ReplaceFunctionWithCommand.Example1Before` | src/situational/replace-function-with-command/example.js:6-9 | returns the state plus 5 and leaves it there |
| `ReplaceFunctionWithCommand.Example1After` | src/situational/replace-function-with-command/example.js:11-16 | returns the same value as Before, and the undo leaves the state as it found it |
| `ReplaceFunctionWithCommand.Example1Fixture` | src/situational/replace-function-with-command/example.js:2-16 | starting from 10 both return 15; after the command version the state is back to 10 |
| `ReplaceFunctionWithCommand.ProcessPayment` | src/situational/replace-function-with-command/example.js:59-62 | logs 'Processing amount currency' once and returns a completed record of the payment |
| `ReplaceFunctionWithCommand.PaymentCommand.Execute` | src/situational/replace-function-with-command/example.js:70-73 | the command logs and returns exactly what the immediate function does |
| `ReplaceFunctionWithCommand.CommandQueue.constructor` | src/situational/replace-function-with-command/example.js:44 | the queue starts empty |
| `ReplaceFunctionWithCommand.CommandQueue.Push` | src/situational/replace-function-with-command/example.js:53-54 | appends one command at the end |
| `ReplaceFunctionWithCommand.CommandQueue.ExecuteAll` | src/situational/replace-function-with-command/example.js:55 | every queued command logs its line, in push order |
| `ReplaceFunctionWithCommand.Example2Before` | src/situational/replace-function-with-command/example.js:46-50 | logs the USD 100 then the EUR 200 line and returns its message |
| `ReplaceFunctionWithCommand.Example2After` | src/situational/replace-function-with-command/example.js:52-57 | queues both commands and runs the whole queue; on an empty queue it logs the same two lines as Before |
| `ReplaceFunctionWithCommand.PaymentCommandsValid` | src/situational/replace-function-with-command/example.js:75-77 | both example commands validate; a zero amount or a two-letter currency does not |
| `ReplaceFunctionWithCommand.SendEmail` | src/situational/replace-function-with-command/example.js:97-106 | the record is marked sent and carries the given recipient and attachments |
| `ReplaceFunctionWithCommand.SendEmailCommand.constructor` | src/situational/replace-function-with-command/example.js:109-115 | every field starts null, no attachments, normal priority |
| `ReplaceFunctionWithCommand.SendEmailCommand.To` | src/situational/replace-function-with-command/example.js:117-120 | sets the recipient and returns the same command |
| `ReplaceFunctionWithCommand.SendEmailCommand.Subject` | src/situational/replace-function-with-command/example.js:122-125 | sets the subject and returns the same command |
| `ReplaceFunctionWithCommand.SendEmailCommand.Body` | src/situational/replace-function-with-command/example.js:127-130 | sets the body and returns the same command |
| `ReplaceFunctionWithCommand.SendEmailCommand.Attach` | src/situational/replace-function-with-command/example.js:132-135 | appends one attachment and returns the same command |
| `ReplaceFunctionWithCommand.SendEmailCommand.Priority` | src/situational/replace-function-with-command/example.js:137-140 | sets the priority and returns the same command |
| `ReplaceFunctionWithCommand.SendEmailCommand.Execute` | src/situational/replace-function-with-command/example.js:142-151 | builds the record sendEmail would build from the collected fields |
| `ReplaceFunctionWithCommand.Example3After` | src/situational/replace-function-with-command/example.js:87-95 | the built-up command returns the same email as the direct call in Before |
| `ReplaceFunctionWithCommand.Plus` | src/situational/replace-function-with-command/example.js:20 | the new state value (null counts as 0); Calculate and CalculateCommand.Execute state their result through it |
| `ReplaceFunctionWithCommand.ProcessingLine` | src/situational/replace-function-with-command/example.js:60 | the 'Processing amount currency' line; ProcessPayment and PaymentCommand.Execute state their log through it |
| `ReplaceFunctionWithCommand.PaymentCommand.Validate` | src/situational/replace-function-with-command/example.js:75-77 | a positive amount and a three-character currency; PaymentCommandsValid states it on the example commands and on two failing ones |
| `ReplaceFunctionWithCommand.LineOf` | src/situational/replace-function-with-command/example.js:71 | the line one queued command logs; CommandQueue.ExecuteAll states the log as these lines in queue order |
| `ReplaceFunctionWithCommand.LinesSnoc` | src/situational/replace-function-with-command/example.js:55 | running one more queued command appends exactly its line to the log |
| `ReplaceFunctionWithCommand.Example3Before` | src/situational/replace-function-with-command/example.js:83-85 | the direct sendEmail call; Example3After states the command version returns this same email |
| `ReplaceErrorCode.Account.constructor` | src/situational/replace-error-code-with-exception/example.js:4 | the module balance starts at the given amount |
| `ReplaceErrorCode.Withdraw` | src/situational/replace-error-code-with-exception/example.js:27-33 | -1 and no change when the amount exceeds the balance; otherwise 0 and the balance drops by the amount |
| `ReplaceErrorCode.WithdrawWithException` | src/situational/replace-error-code-with-exception/example.js:35-40 | throws 'Insufficient funds' exactly where the code version returns -1, with the same effect on the balance |
| `ReplaceErrorCode.Example1Before` | src/situational/replace-error-code-with-exception/example.js:6-14 | succeeds exactly when the amount fits the balance, logs one matching message and debits only on success |
| `ReplaceErrorCode.Example1After` | src/situational/replace-error-code-with-exception/example.js:16-25 | the try/catch version has the same result, balance and log as Before |
| `ReplaceErrorCode.Example1Fixture` | src/situational/replace-error-code-with-exception/example.js:2-18 | 150 against 100 fails in both versions and leaves the balance at 100 |
| `ReplaceErrorCode.ReadFile` | src/situational/replace-error-code-with-exception/example.js:67-72 | data exactly for 'config.json'; otherwise the 'File not found' error |
| `ReplaceErrorCode.ReadFileWithException` | src/situational/replace-error-code-with-exception/example.js:82-87 | throws exactly where the code version returns its error, and returns the same text otherwise |
| `ReplaceErrorCode.ParseJson` | src/situational/replace-error-code-with-exception/example.js:74-80 | an error exactly when the parser throws, and then always 'Invalid JSON' |
| `ReplaceErrorCode.Example2Before` | src/situational/replace-error-code-with-exception/example.js:45-55 | any file but config.json gives 'File not found'; config.json gives the parsed value, or 'Invalid JSON' when parsing fails |
| `ReplaceErrorCode.Example2After` | src/situational/replace-error-code-with-exception/example.js:57-65 | any file but config.json gives 'File not found'; config.json gives exactly the parser's result, so it matches Before whenever the content parses and otherwise carries the parser's own message rather than 'Invalid JSON' |
| `ReplaceErrorCode.ValidateUser` | src/situational/replace-error-code-with-exception/example.js:123-131 | 0, 1 or 2; 0 exactly when the e-mail has '@' and the age is at least 18; 2 only for a well-formed e-mail (the e-mail is checked first) |
| `ReplaceErrorCode.ValidateUserWithException` | src/situational/replace-error-code-with-exception/example.js:133-140 | completes exactly when the code is 0, and throws the message matching codes 1 and 2 |
| `ReplaceErrorCode.Example3Before` | src/situational/replace-error-code-with-exception/example.js:96-109 | true exactly for a valid user; logs the one message matching the code |
| `ReplaceErrorCode.Example3After` | src/situational/replace-error-code-with-exception/example.js:111-121 | same result and log as Before for every user |
| `ReplaceErrorCode.Example3Fixture` | src/situational/replace-error-code-with-exception/example.js:97-112 | 'invalid-email' aged 15 fails on the e-mail, not the age |
| `ReplaceErrorCode.WithdrawalMessage` | src/situational/replace-error-code-with-exception/example.js:8-12 | 'Withdrawal successful' or 'Insufficient funds'; Example1Before and Example1After state each version logs exactly this one line |
| `ReplaceErrorCode.ValidationMessage` | src/situational/replace-error-code-with-exception/example.js:99-107 | the line logged for each validation code; Example3Before and Example3After state each version logs exactly this one line |
| `ReplaceTempWithQuery.BasePrice` | src/situational/replace-temp-with-query/example.js:16-18 | quantity times item price; PriceDependsOnBasePrice shows the final price depends on nothing else |
| `ReplaceTempWithQuery.DiscountFactor` | src/situational/replace-temp-with-query/example.js:20-22 | 0.95 exactly when the base price is above 1000, 0.98 exactly when it is not |
| `ReplaceTempWithQuery.Example1Before` | src/situational/replace-temp-with-query/example.js:4-9 | for a non-negative base price the result lies between 95% and 98% of it |
| `ReplaceTempWithQuery.Example1After` | src/situational/replace-temp-with-query/example.js:11-14 | the query version returns exactly what the temp version returns |
| `ReplaceTempWithQuery.PriceDependsOnBasePrice` | src/situational/replace-temp-with-query/example.js:13-22 | orders with equal base prices get equal discounted prices |
| `ReplaceTempWithQuery.Example1Fixture` | src/situational/replace-temp-with-query/example.js:5-8 | 100 items at 10 is exactly 1000, not above the threshold: factor 0.98, price 980 |
| `ReplaceTempWithQuery.CalculateTotal` | src/situational/replace-temp-with-query/example.js:51-53 | the sum of price times quantity over the items, equal to the source's reduce from 0 |
| `ReplaceTempWithQuery.ReduceTotalIsSum` | src/situational/replace-temp-with-query/example.js:32-52 | the left fold of reduce from a start value adds the sum of the line amounts |
| `ReplaceTempWithQuery.CalculateGrandTotal` | src/situational/replace-temp-with-query/example.js:55-61 | the grand total is 1.2 times the total |
| `ReplaceTempWithQuery.Example2Before` | src/situational/replace-temp-with-query/example.js:27-37 | the total is the sum of price times quantity, and the grand total is total plus tax |
| `ReplaceTempWithQuery.Example2After` | src/situational/replace-temp-with-query/example.js:39-49 | the three queries give the same record as the temps |
| `ReplaceTempWithQuery.Example2Fixture` | src/situational/replace-temp-with-query/example.js:28-43 | 50x1 + 35x2 gives total 120, tax 24, grand total 144 |
| `ReplaceTempWithQuery.TotalSpent` | src/situational/replace-temp-with-query/example.js:90-92 | the sum of the order amounts, equal to the source's reduce from 0 |
| `ReplaceTempWithQuery.ReduceAmountsIsSum` | src/situational/replace-temp-with-query/example.js:74-92 | the left fold over order amounts adds their sum |
| `ReplaceTempWithQuery.IsPriorityCustomer` | src/situational/replace-temp-with-query/example.js:95-97 | priority exactly when the summed order amounts exceed 1000 |
| `ReplaceTempWithQuery.Example3Agree` | src/situational/replace-temp-with-query/example.js:66-89 | the query version builds the same message as the temp version for every customer |
| `ReplaceTempWithQuery.Example3Message` | src/situational/replace-temp-with-query/example.js:76-88 | the message starts with 'H' exactly for a priority customer and ends with the total spent |
| `ReplaceTempWithQuery.Example3FixtureTotal` | src/situational/replace-temp-with-query/example.js:67-73 | the fixture orders 500, 300 and 700 total 1500 |
| `ReplaceTempWithQuery.Example3Fixture` | src/situational/replace-temp-with-query/example.js:64-89 | the fixture customer gets 'High priority customer with balance: 1500' |
| `ReplaceTempWithQuery.LineAmount` | src/situational/replace-temp-with-query/example.js:52 | price times quantity of one item; ReduceTotalIsSum states the reduce adds these over the items |
| `ReplaceTempWithQuery.ReduceTotal` | src/situational/replace-temp-with-query/example.js:52 | the left fold reduce performs; ReduceTotalIsSum states that from any start it adds the sum of the line amounts |
| `ReplaceTempWithQuery.CalculateTax` | src/situational/replace-temp-with-query/example.js:55-57 | 20% of the total; CalculateGrandTotal states the grand total is 1.2 times the total and Example2Fixture gives 24 on the fixture |
| `ReplaceTempWithQuery.Amount` | src/situational/replace-temp-with-query/example.js:92 | one order's amount; ReduceAmountsIsSum states the reduce adds these over the orders |
| `ReplaceTempWithQuery.ReduceAmounts` | src/situational/replace-temp-with-query/example.js:74 | the left fold reduce performs; ReduceAmountsIsSum states that from any start it adds the sum of the order amounts |
| `ReplaceTempWithQuery.Example3Before` | src/situational/replace-temp-with-query/example.js:66-77 | the temp version; Example3Agree states the query version builds the same message for every customer |
| `ReplaceTempWithQuery.Example3After` | src/situational/replace-temp-with-query/example.js:79-89 | the query version; Example3Message states its first letter names the class and it ends with the total spent |
| `ReplaceTempWithQuery.HighHead` | src/situational/replace-temp-with-query/example.js:76-88 | the two-part head of the query version spells the temp version's 'High priority customer with balance: ' |
| `ReplaceTempWithQuery.RegularHead` | src/situational/replace-temp-with-query/example.js:76-88 | the two-part head of the query version spells the temp version's 'Regular customer with balance: ' |
| `ReplaceTempWithQuery.Balance1500` | src/situational/replace-temp-with-query/example.js:64 | the balance 1500 prints as '1500' |
| `ReplaceTempWithQuery.FixtureText` | src/situational/replace-temp-with-query/example.js:64 | the head and '1500' make the expected message |
| `RenameVariable.CalculateAreaAfter` | src/situational/rename-variable/example.js:5-17 | the renamed function returns the same area as the original |
| `RenameVariable.AreaMonotone` | src/situational/rename-variable/example.js:14-17 | with a positive height, a wider rectangle never has a smaller area |
| `RenameVariable.Example1Fixture` | src/situational/rename-variable/example.js:10-19 | 5 by 10 gives 50 in both versions |
| `RenameVariable.ActiveUserNames` | src/situational/rename-variable/example.js:32-40 | at most one name per user, and every name belongs to an active user |
| `RenameVariable.ActiveUserNamesSnoc` | src/situational/rename-variable/example.js:34-38 | one more user adds that user's name at the end exactly when the user is active |
| `RenameVariable.GetActiveUserNamesBefore` | src/situational/rename-variable/example.js:32-40 | the loop pushing into r returns the names of the active users in order |
| `RenameVariable.GetActiveUserNamesAfter` | src/situational/rename-variable/example.js:52-60 | the renamed loop returns the same names |
| `RenameVariable.Example2Fixture` | src/situational/rename-variable/example.js:26-62 | both versions give Alice and Carol |
| `RenameVariable.InventoryValueSnoc` | src/situational/rename-variable/example.js:77-80 | one more product adds its price times quantity to the total |
| `RenameVariable.CalculateInventoryValueBefore` | src/situational/rename-variable/example.js:75-82 | the loop accumulating t returns the sum of price times quantity |
| `RenameVariable.CalculateInventoryValueAfter` | src/situational/rename-variable/example.js:94-101 | the renamed loop returns the same sum |
| `RenameVariable.InventoryValueNonNegative` | src/situational/rename-variable/example.js:75-82 | stock with non-negative prices and quantities has a non-negative value |
| `RenameVariable.Example3Fixture` | src/situational/rename-variable/example.js:69-103 | both versions value the fixture stock at 215 |
| `RenameVariable.CalculateAreaBefore` | src/situational/rename-variable/example.js:5-8 | height × width through the short local; CalculateAreaAfter states the renamed version returns the same area, and Example1Fixture gives 50 |
| `RenameVariable.IsActive` | src/situational/rename-variable/example.js:35 | the loop's test `u.active`; ActiveUserNames and ActiveUserNamesSnoc state which names it lets through |
| `RenameVariable.Name` | src/situational/rename-variable/example.js:36 | the pushed `u.name`; ActiveUserNames states every name comes from an active user |
| `RenameVariable.ProductValue` | src/situational/rename-variable/example.js:78 | price × quantity of one product; InventoryValueSnoc states each product adds it to the total |
| `RenameVariable.InventoryValue` | src/situational/rename-variable/example.js:76-81 | the sum of price × quantity; CalculateInventoryValueBefore and CalculateInventoryValueAfter state the loops return it, and InventoryValueNonNegative its sign |
| `ReplacePrimitiveWithObject.NewEmail` | src/situational/replace-primitive-with-object/example.js:17-23 | an Email exactly for a value with an '@' and a '.', holding that value; otherwise 'Invalid email' |
| `ReplacePrimitiveWithObject.Example1Before` | src/situational/replace-primitive-with-object/example.js:4-10 | the inline check accepts exactly the same strings and returns the unverified record |
| `ReplacePrimitiveWithObject.Example1Agree` | src/situational/replace-primitive-with-object/example.js:4-28 | both versions accept the same strings and throw the same message, and the wrapped value prints as the plain string |
| `ReplacePrimitiveWithObject.Example1Fixture` | src/situational/replace-primitive-with-object/example.js:2-14 | 'user@example.com' is accepted as an unverified Email |
| `ReplacePrimitiveWithObject.FormatPhone` | src/situational/replace-primitive-with-object/example.js:38-56 | fourteen characters: '(' at 0, ')' at 4, a space at 5, '-' at 9, and the three digit groups in order are the input |
| `ReplacePrimitiveWithObject.PhoneNumber.Format` | src/situational/replace-primitive-with-object/example.js:55-57 | the format has length 14 and its digit groups give back the stored number |
| `ReplacePrimitiveWithObject.NewPhoneNumber` | src/situational/replace-primitive-with-object/example.js:48-53 | a PhoneNumber exactly for a ten-character value, holding it; otherwise 'Invalid phone number' |
| `ReplacePrimitiveWithObject.Example2Before` | src/situational/replace-primitive-with-object/example.js:33-40 | accepts exactly the ten-character inputs and returns FormatPhone of them; otherwise 'Invalid phone number' |
| `ReplacePrimitiveWithObject.Example2After` | src/situational/replace-primitive-with-object/example.js:42-45 | the class version returns or throws exactly what the inline version does |
| `ReplacePrimitiveWithObject.Example2Fixture` | src/situational/replace-primitive-with-object/example.js:31-43 | '5551234567' gives '(555) 123-4567' |
| `ReplacePrimitiveWithObject.Money.Add` | src/situational/replace-primitive-with-object/example.js:96-101 | different currencies throw; two valid amounts in one currency give their sum in that currency, itself valid |
| `ReplacePrimitiveWithObject.NewMoney` | src/situational/replace-primitive-with-object/example.js:85-94 | a Money exactly for a non-negative amount in USD, EUR or GBP; a negative amount is reported before an unknown currency |
| `ReplacePrimitiveWithObject.AddCommutes` | src/situational/replace-primitive-with-object/example.js:96-101 | when adding succeeds, the order of the operands does not matter |
| `ReplacePrimitiveWithObject.ToStringShape` | src/situational/replace-primitive-with-object/example.js:103-105 | a valid Money prints as its amount, a space and its three-letter currency |
| `ReplacePrimitiveWithObject.Example3Before` | src/situational/replace-primitive-with-object/example.js:67-77 | the inline checks throw or return exactly what the constructor does |
| `ReplacePrimitiveWithObject.Example3After` | src/situational/replace-primitive-with-object/example.js:79-82 | the constructor version returns or throws what the inline version does |
| `ReplacePrimitiveWithObject.Example3Fixture` | src/situational/replace-primitive-with-object/example.js:65-80 | 100 USD is accepted; adding 5 USD gives 105 USD; adding 5 EUR throws |
| `ReplacePrimitiveWithObject.LooksLikeEmail` | src/situational/replace-primitive-with-object/example.js:19 | an '@' and a '.' somewhere in the value; NewEmail and Example1Before state they accept exactly such values |
| `ReplacePrimitiveWithObject.Email.ToString` | src/situational/replace-primitive-with-object/example.js:25-27 | the wrapped string; NewEmail states an accepted Email prints as the value it was built from |
| `ReplacePrimitiveWithObject.Example1After` | src/situational/replace-primitive-with-object/example.js:12-15 | the class version; Example1Agree states it accepts and rejects exactly what Example1Before does, with the same message |
| `ReplacePrimitiveWithObject.PhoneNumber.ToString` | src/situational/replace-primitive-with-object/example.js:59-61 | the wrapped string; NewPhoneNumber states an accepted PhoneNumber prints as the value it was built from |
| `ReplacePrimitiveWithObject.Money.Valid` | src/situational/replace-primitive-with-object/example.js:86-91 | a non-negative amount in USD, EUR or GBP; NewMoney states it builds exactly the valid values and Money.Add keeps validity |
| `ReplacePrimitiveWithObject.Money.ToString` | src/situational/replace-primitive-with-object/example.js:103-105 | amount, a space, currency; ToStringShape states the printed form ends in the space and the currency |
| `ReplaceConstructorWithFactory.NewEmployee` | src/situational/replace-constructor-with-factory-function/example.js:16-22 | keeps the given name and type; the salary is always the 100000 default |
| `ReplaceConstructorWithFactory.CreateEngineer` | src/situational/replace-constructor-with-factory-function/example.js:24-26 | an employee of type 'E' with the given name and the default salary |
| `ReplaceConstructorWithFactory.Example1After` | src/situational/replace-constructor-with-factory-function/example.js:4-14 | the factory builds the same employee as the direct constructor call |
| `ReplaceConstructorWithFactory.Example1Fixture` | src/situational/replace-constructor-with-factory-function/example.js:2-11 | John Doe becomes { name: 'John Doe', type: 'E', salary: 100000 } |
| `ReplaceConstructorWithFactory.NewEngineer` | src/situational/replace-constructor-with-factory-function/example.js:48-54 | an engineer with the given name, role 'engineer' and level 'senior' |
| `ReplaceConstructorWithFactory.NewManager` | src/situational/replace-constructor-with-factory-function/example.js:56-62 | a manager with the given name, role 'manager' and no reports |
| `ReplaceConstructorWithFactory.Example2Before` | src/situational/replace-constructor-with-factory-function/example.js:31-40 | an employee exactly for the types 'engineer' and 'manager'; undefined otherwise |
| `ReplaceConstructorWithFactory.CreateEmployee` | src/situational/replace-constructor-with-factory-function/example.js:64-70 | an employee exactly for the two known types; it keeps the name, its role equals the type, and it is an engineer exactly for 'engineer' |
| `ReplaceConstructorWithFactory.Example2After` | src/situational/replace-constructor-with-factory-function/example.js:42-46 | the factory returns what the if-chain assigns, undefined included |
| `ReplaceConstructorWithFactory.Example2Fixture` | src/situational/replace-constructor-with-factory-function/example.js:29-43 | Alice/engineer and Bob/manager give the two objects the comment lists |
| `ReplaceConstructorWithFactory.DatabaseConnection.Query` | src/situational/replace-constructor-with-factory-function/example.js:90-95 | the stub answers the same two user rows whatever the SQL |
| `ReplaceConstructorWithFactory.CreateConnection` | src/situational/replace-constructor-with-factory-function/example.js:98-100 | the connection keeps the configuration it was given |
| `ReplaceConstructorWithFactory.Example3After` | src/situational/replace-constructor-with-factory-function/example.js:75-83 | the factory-built connection answers the same rows as the directly built one: users 1 and 2 |
| `ReplaceConstructorWithFactory.Example1Before` | src/situational/replace-constructor-with-factory-function/example.js:4-8 | `new Employee(leadEngineer, 'E')`; NewEmployee states its fields, and Example1After states the factory builds the same employee |
| `ReplaceConstructorWithFactory.Example3Before` | src/situational/replace-constructor-with-factory-function/example.js:75-78 | queries a directly constructed connection; Example3After states it returns users 1 and 2, as the factory-built one does |
| `InlineVariable.CheckPriceBefore` | src/situational/inline-variable/example.js:7-10 | a premium price exactly from 1001 up: the threshold 1000 is excluded |
| `InlineVariable.CheckPriceAfter` | src/situational/inline-variable/example.js:7-20 | the inlined check agrees with the one using a local; premium exactly from 1001 up |
| `InlineVariable.Example1Fixture` | src/situational/inline-variable/example.js:5-22 | an order at 1200 is a premium price in both versions |
| `InlineVariable.GetUserFullNameBefore` | src/situational/inline-variable/example.js:37-41 | the first name, one space, then the last name |
| `InlineVariable.GetUserFullNameAfter` | src/situational/inline-variable/example.js:37-57 | same name as the version with locals: the first name, one space, then the last name |
| `InlineVariable.Example2Fixture` | src/situational/inline-variable/example.js:29-53 | John and Doe give 'John Doe' |
| `InlineVariable.ProcessItemsBefore` | src/situational/inline-variable/example.js:72-75 | never longer than the input; every name returned belongs to an in-stock item |
| `InlineVariable.ProcessItemsAfter` | src/situational/inline-variable/example.js:72-89 | the chained filter/map gives the same list as the version with a local; at most one name per item, each the name of an in-stock item |
| `InlineVariable.InStockItemsListed` | src/situational/inline-variable/example.js:88 | every in-stock item's name appears in the result |
| `InlineVariable.Example3Fixture` | src/situational/inline-variable/example.js:66-85 | Apple and Orange are listed, Banana is not |
| `InlineVariable.InStock` | src/situational/inline-variable/example.js:73 | the filter test `item => item.inStock`; ProcessItemsBefore and InStockItemsListed state which names survive it |
| `InlineVariable.ItemName` | src/situational/inline-variable/example.js:74 | the mapping `item => item.name`; ProcessItemsBefore states every name it yields is an in-stock item's |
| `InlineFunction.GetRatingBefore` | src/situational/inline-function/example.js:5-11 | the rating is 1 or 2, and 2 exactly for at least six late deliveries |
| `InlineFunction.GetRatingAfter` | src/situational/inline-function/example.js:5-20 | the inlined rating equals the one through the helper: 2 exactly from six late deliveries up, otherwise 1 |
| `InlineFunction.RatingMonotone` | src/situational/inline-function/example.js:18-20 | more late deliveries never lower the rating |
| `InlineFunction.Example1Fixture` | src/situational/inline-function/example.js:13-23 | John with 7 late deliveries is rated 2 in both versions |
| `InlineFunction.IsEligibleBefore` | src/situational/inline-function/example.js:30-36 | eligible exactly for an account holder older than 17 |
| `InlineFunction.IsEligibleAfter` | src/situational/inline-function/example.js:30-45 | the inlined test equals the one through isAdult; an eligible user has an account and is over 17 |
| `InlineFunction.Example2Fixture` | src/situational/inline-function/example.js:38-47 | Alice at 25 with an account is eligible; at 17 she would not be |
| `InlineFunction.ProcessOrderBefore` | src/situational/inline-function/example.js:55-67 | the subtotal is the amount and the total is subtotal plus tax |
| `InlineFunction.ProcessOrderAfter` | src/situational/inline-function/example.js:74-82 | dropping the delegating helper gives the same record |
| `InlineFunction.TotalScales` | src/situational/inline-function/example.js:78-81 | the total is the amount times one plus the rate |
| `InlineFunction.Example3Fixture` | src/situational/inline-function/example.js:69-85 | 100 at rate 0.08 gives subtotal 100, tax 8, total 108 |
| `InlineFunction.MoreThanFiveLateDeliveries` | src/situational/inline-function/example.js:5-7 | more than five late deliveries; GetRatingBefore states the rating is 2 exactly then |
| `InlineFunction.IsAdult` | src/situational/inline-function/example.js:30-32 | age at least 18; IsEligibleBefore states eligibility through it is an account holder older than 17 |
| `InlineFunction.CalculateTax` | src/situational/inline-function/example.js:55-57 | amount × rate; TotalScales states the total it yields is the amount times one plus the rate |
| `InlineFunction.CalculateOrderTax` | src/situational/inline-function/example.js:59-61 | delegates to calculateTax; ProcessOrderAfter states dropping it changes nothing |
| `SubstituteAlgorithm.DropKent` | src/situational/substitute-algorithm/example.js:12-33 | keeping Don, John and Kent and then dropping Kent keeps exactly the Dons and Johns, in order |
| `SubstituteAlgorithm.Example1Before` | src/situational/substitute-algorithm/example.js:4-24 | the loop with three tests followed by the Kent filter returns what the single filter returns |
| `SubstituteAlgorithm.Example1After` | src/situational/substitute-algorithm/example.js:26-34 | a sub-list of the people, each named Don or John |
| `SubstituteAlgorithm.Example1Fixture` | src/situational/substitute-algorithm/example.js:2-33 | the fixture keeps Don and John |
| `SubstituteAlgorithm.Example2Before` | src/situational/substitute-algorithm/example.js:39-48 | undefined exactly for an empty array; otherwise an element no smaller than any other, and equal to Math.max of the array |
| `SubstituteAlgorithm.MaxIsUnique` | src/situational/substitute-algorithm/example.js:41-52 | an element at least as large as every element is what Math.max returns |
| `SubstituteAlgorithm.Example2After` | src/situational/substitute-algorithm/example.js:50-53 | Math.max of no values is minus infinity and of some values is finite |
| `SubstituteAlgorithm.Example2Fixture` | src/situational/substitute-algorithm/example.js:37-51 | both versions give 95 |
| `SubstituteAlgorithm.Example3Before` | src/situational/substitute-algorithm/example.js:58-69 | the loop that stops at the first match returns what includes returns |
| `SubstituteAlgorithm.Example3After` | src/situational/substitute-algorithm/example.js:71-75 | true exactly when some position holds the target |
| `SubstituteAlgorithm.Example3Fixture` | src/situational/substitute-algorithm/example.js:56-73 | 'banana' is found by both versions |
| `SubstituteAlgorithm.IsDonJohnOrKent` | src/situational/substitute-algorithm/example.js:13-21 | one of the three names the loop tests; DropKent states keeping these and then dropping Kent keeps exactly Don and John |
| `SubstituteAlgorithm.IsNotKent` | src/situational/substitute-algorithm/example.js:23 | the final filter's test; DropKent states applying it after the three-name loop keeps exactly Don and John |
| `SubstituteAlgorithm.IsDonOrJohn` | src/situational/substitute-algorithm/example.js:33 | the includes test of the replacement; Example1After states every person it keeps is named Don or John |
| `GuidelineExtractor.PrincipleLineLiteral` | test/gemini/utils/extract-guideline.js:25-42 | the escaped pattern matches a dash, any run of white space and the bold name literally, whatever characters the name holds |
| `GuidelineExtractor.SectionLines` | test/gemini/utils/extract-guideline.js:34-39 | a contiguous run of lines right after the header, none of them opening a section, ending at the next '## ' line or at the end of the file |
| `GuidelineExtractor.CandidateLines` | test/gemini/utils/extract-guideline.js:48-58 | a prefix starting at the principle line, with no stop line after the first, ending just before the first stop line or at the end |
| `GuidelineExtractor.KeepBulletAndSubBullets` | test/gemini/utils/extract-guideline.js:61-63 | the principle line first, then the candidates' sub-bullets in their original order (a subsequence), every sub-bullet kept as many times as it occurs and nothing else |
| `GuidelineExtractor.GuidelineText` | test/gemini/utils/extract-guideline.js:61-65 | the text is the kept lines (principle line and its sub-bullets) joined with newlines and trimmed; it is never empty, starts with the bullet's dash and ends with a non-space character |
| `GuidelineExtractor.MessagesDiffer` | test/gemini/utils/extract-guideline.js:30-44 | the missing-section and missing-principle messages always differ |
| `GuidelineExtractor.FromSection` | test/gemini/utils/extract-guideline.js:42-71 | a guideline exactly when some line of the section is the principle's bullet; otherwise the missing-principle error; never the missing-section error |
| `GuidelineExtractor.ExtractGuideline` | test/gemini/utils/extract-guideline.js:19-72 | the missing-section error exactly when no line trims to '## ' plus the section name; any guideline returned is non-empty and starts with '-' (ExtractIsFirstGuideline says which text it is) |
| `GuidelineExtractor.ExtractUsesFirstSection` | test/gemini/utils/extract-guideline.js:28-39 | when a section header appears twice, the first one is the one searched |
| `GuidelineExtractor.FromSectionUsesFirstPrinciple` | test/gemini/utils/extract-guideline.js:42-48 | the first matching principle bullet in the section is the one returned |
| `GuidelineExtractor.ExtractIsFirstGuideline` | test/gemini/utils/extract-guideline.js:19-72 | with the first matching header and the first principle line of its section, the extraction succeeds with exactly that principle's guideline text |
| `GuidelineExtractor.ExampleNextBulletStops` | test/gemini/utils/extract-guideline.js:53 | the next principle's bullet ends the collection |
| `GuidelineExtractor.ExampleBodyContinues` | test/gemini/utils/extract-guideline.js:53 | an indented sub-bullet and a blank line do not end it |
| `GuidelineExtractor.CandidateStopsAtThird` | test/gemini/utils/extract-guideline.js:51-58 | two continuing lines then a stop line give the bullet and the two lines |
| `GuidelineExtractor.KeepDropsNonBullet` | test/gemini/utils/extract-guideline.js:61-63 | the filter keeps a sub-bullet and drops a line that is not one |
| `GuidelineExtractor.ExampleSection` | test/gemini/utils/extract-guideline.js:11-63 | a multi-line principle followed by another principle yields the bullet and its sub-bullet, without the blank line |
| `GuidelineExtractor.ExampleGuidelineText` | test/gemini/utils/extract-guideline.js:42-72 | on that section the extracted text is '- **Guard Clauses**', a newline and '    - Return early' |
| `GuidelineExtractor.ExamplePrincipleLine` | test/gemini/utils/extract-guideline.js:25 | '- **Guard Clauses**' matches the principle pattern for 'Guard Clauses' |
| `GuidelineExtractor.BoldBulletIsPrinciple` | test/gemini/utils/extract-guideline.js:25 | a dash, a space and the bold name match the principle pattern for any name |
| `GuidelineExtractor.ExampleJoinTrim` | test/gemini/utils/extract-guideline.js:65 | two lines with non-space outer ends join with a newline and trim to themselves |
| `GuidelineExtractor.Lines` | test/gemini/utils/extract-guideline.js:22 | `content.split('\n')` through Js.Split, whose JoinSplit and SplitJoin lemmas state it inverts join |
| `GuidelineExtractor.IsHeaderFor` | test/gemini/utils/extract-guideline.js:24-28 | the trimmed line equals '## ' and the section name; ExtractGuideline and ExtractUsesFirstSection state the first such line is used |
| `GuidelineExtractor.HasSection` | test/gemini/utils/extract-guideline.js:28-31 | some line is the section header; ExtractGuideline states the missing-section error is returned exactly without one |
| `GuidelineExtractor.OpensSection` | test/gemini/utils/extract-guideline.js:36 | the `^## ` test; SectionLines states the section ends at the first such line |
| `GuidelineExtractor.DashThen` | test/gemini/utils/extract-guideline.js:25 | a dash, a non-empty run of white space, then the text; PrincipleLineLiteral states which lines it accepts |
| `GuidelineExtractor.IsTopBullet` | test/gemini/utils/extract-guideline.js:53 | the `^-\s+\*\*` test; ExampleNextBulletStops states it ends the collection |
| `GuidelineExtractor.IsPrincipleLine` | test/gemini/utils/extract-guideline.js:25 | the escaped principle pattern; PrincipleLineLiteral and BoldBulletIsPrinciple state it matches the name literally |
| `GuidelineExtractor.IsPrincipleFor` | test/gemini/utils/extract-guideline.js:42 | the findIndex callback; FromSection and FromSectionUsesFirstPrinciple state the first matching line is used |
| `GuidelineExtractor.IsStopLine` | test/gemini/utils/extract-guideline.js:53 | a top-level bullet or a non-blank line not starting with a space; CandidateLines states the collection stops at the first one |
| `GuidelineExtractor.IsSubBullet` | test/gemini/utils/extract-guideline.js:62 | `line.startsWith('    -')`; KeepBulletAndSubBullets states it keeps exactly these after the first line |
| `GuidelineExtractor.IsGuidelineText` | test/gemini/utils/extract-guideline.js:65-71 | non-empty, opening with '-', no white space at the end; GuidelineText states every extraction satisfies it |
| `GuidelineExtractor.TrimmedJoinIsGuideline` | test/gemini/utils/extract-guideline.js:65-69 | kept lines whose first opens with '-' join and trim to non-empty guideline text, so the emptiness check never fires |
| `GuidelineExtractor.SectionMissing` | test/gemini/utils/extract-guideline.js:30 | the missing-section message; MessagesDiffer states it differs from the missing-principle one |
| `GuidelineExtractor.PrincipleMissing` | test/gemini/utils/extract-guideline.js:44 | the missing-principle message; FromSection states when it is returned |
| `AlphaVantageHelpers.CalculateRetryDelay` | test/fixture/bad-example1.js:4-32 | from the first attempt on, the wait is at least one second |
| `AlphaVantageHelpers.RetryDelayGrows` | test/fixture/bad-example1.js:30-32 | each retry waits one second longer than the one before |
| `AlphaVantageHelpers.ValidationError` | test/fixture/bad-example1.js:6-111 | the rate-limit message when Information is set, checked first; otherwise the API's own Error Message; none exactly when neither field is set |
| `AlphaVantageHelpers.RateLimitWait` | test/fixture/bad-example1.js:2-68 | a non-negative sleep after which at least 12000 ms have passed since the last request; a sleep exactly when less has passed |
| `AlphaVantageHelpers.AttemptRun` | test/fixture/bad-example1.js:26-125 | one call fetches at least once and at most once per attempt left; sleeps 1000*(k+1) ms between fetches k and k+1; never lowers the flag; a newly raised flag means the rate-limit error; only validated data is returned |
| `AlphaVantageHelpers.FailedRun` | test/fixture/bad-example1.js:117-125 | rethrows the error, fetching nothing, exactly when no retry is left; otherwise fewer fetches than attempts left, one delay per fetch |
| `AlphaVantageHelpers.AtMostThreeFetches` | test/fixture/bad-example1.js:3-72 | with the default limit a call fetches at most three times |
| `AlphaVantageHelpers.RateLimitNotRetried` | test/fixture/bad-example1.js:89-104 | a rate-limit body ends the run with the rate-limit error after one fetch and no sleep, and raises the flag |
| `AlphaVantageHelpers.AllHttpFailures` | test/fixture/bad-example1.js:77-120 | when every attempt left gets an HTTP error, it fetches once per attempt and rethrows the last status's error |
| `AlphaVantageHelpers.AlphaVantageClient.constructor` | test/fixture/bad-example1.js:35-43 | a client with a key starts with time 0 and the flag down |
| `AlphaVantageHelpers.AlphaVantageClient.WaitForRateLimit` | test/fixture/bad-example1.js:61-68 | sleeps exactly the rate-limit wait for the time since the last request |
| `AlphaVantageHelpers.AlphaVantageClient.HandleRateLimitExceeded` | test/fixture/bad-example1.js:113-115 | raises the flag |
| `AlphaVantageHelpers.AlphaVantageClient.ValidateResponseData` | test/fixture/bad-example1.js:100-111 | returns the validation error and raises the flag exactly for a rate-limit body |
| `AlphaVantageHelpers.AlphaVantageClient.AttemptFetchWithRetries` | test/fixture/bad-example1.js:74-98 | returns, fetches, sleeps and sets the flag as the attempt policy says |
| `AlphaVantageHelpers.AlphaVantageClient.HandleFailedResponse` | test/fixture/bad-example1.js:117-125 | rethrows or sleeps and retries as the failed-response policy says |
| `AlphaVantageHelpers.AlphaVantageClient.FetchWithRetry` | test/fixture/bad-example1.js:70-72 | the run from attempt 0 with the given limit |
| `AlphaVantageHelpers.AlphaVantageClient.FetchWithRateLimit` | test/fixture/bad-example1.js:45-59 | with the flag up: throws the rate-limit error before waiting or fetching; otherwise waits out the rate limit, stamps the request time and runs the default policy |
| `AlphaVantageHelpers.CreateClient` | test/fixture/bad-example1.js:35-45 | throws the missing-key error exactly when the key is empty; otherwise a fresh client with the key, time 0 and the flag down |
| `AlphaVantageHelpers.RateLimitIsSticky` | test/fixture/bad-example1.js:45-93 | after a rate-limit response, the first call throws after one fetch and the next call throws without fetching |
| `AlphaVantageHelpers.HttpErrorMessage` | test/fixture/bad-example1.js:22-24 | 'HTTP error! status: ' and the status; AllHttpFailures states it is the message a run of HTTP failures rethrows |
| `AlphaVantageHelpers.HasRateLimitError` | test/fixture/bad-example1.js:6-8 | a body with a non-empty Information field; ValidationError and RateLimitNotRetried state what it triggers |
| `AlphaVantageHelpers.HasApiError` | test/fixture/bad-example1.js:10-12 | a body with a non-empty 'Error Message' field; ValidationError states it is checked after the rate limit |
| `AlphaVantageHelpers.ShouldRetry` | test/fixture/bad-example1.js:26-28 | another attempt is allowed below maxRetries - 1; FailedRun and AtMostThreeFetches state the resulting fetch bound, and ThrowTestNegatesShouldRetry ties the inlined test to it |
| `AlphaVantageInlined.ThrowTestNegatesShouldRetry` | test/fixture/good-example1.js:86-90 | the inlined throw test is the negation of shouldRetry, and the inlined delay is calculateRetryDelay |
| `AlphaVantageInlined.InlinedClient.constructor` | test/fixture/good-example1.js:7-15 | a client with a key starts with time 0 and the flag down |
| `AlphaVantageInlined.InlinedClient.WaitForRateLimit` | test/fixture/good-example1.js:33-40 | sleeps the same rate-limit wait as the helper version |
| `AlphaVantageInlined.InlinedClient.ValidateResponseData` | test/fixture/good-example1.js:68-79 | the field tests written inline give the helper version's validation error and flag |
| `AlphaVantageInlined.InlinedClient.HandleRateLimitExceeded` | test/fixture/good-example1.js:81-83 | raises the flag |
| `AlphaVantageInlined.InlinedClient.AttemptFetchWithRetries` | test/fixture/good-example1.js:42-66 | follows the helper version's attempt policy: same result, fetches, delays and flag |
| `AlphaVantageInlined.InlinedClient.HandleFailedResponse` | test/fixture/good-example1.js:85-92 | follows the helper version's failed-response policy |
| `AlphaVantageInlined.InlinedClient.FetchWithRateLimit` | test/fixture/good-example1.js:17-31 | the same throw, wait, time stamp and run as the helper version's fetchWithRateLimit |
| `AlphaVantageInlined.CreateInlinedClient` | test/fixture/good-example1.js:7-15 | throws the missing-key error exactly when the key is empty; otherwise a fresh client |
| `AlphaVantageInlined.ClientsAgree` | test/fixture/good-example1.js:17-31 | given the same fetch outcomes and clock readings, the two clients return the same thing after the same fetches and sleeps, and end in the same state |
| `ReportService.Jql` | test/fixture/bad-example2.js:25-27 | the assignee clauses joined by ' OR ' in parentheses, then the category and the two date bounds; JqlDeterminesCategory shows the category can be read back from it |
| `ReportService.JqlDeterminesCategory` | test/fixture/bad-example2.js:25-27 | two queries over the same assignees and dates are equal only for the same status category |
| `ReportService.SearchUserIssues` | test/fixture/bad-example2.js:10-30 | the ids error for a missing or empty id list, checked first; then the category error for an empty category; otherwise the search for the JQL text with at most 1000 results |
| `ReportService.Keys` | test/fixture/bad-example2.js:87-100 | one key per entry of the issues object, in insertion order |
| `ReportService.Assign` | test/fixture/bad-example2.js:87 | `issues[key] = value`: a present key keeps its place and takes the new value, a new key goes last (AssignKeys, AssignValues, AssignDistinct) |
| `ReportService.AssignKeys` | test/fixture/bad-example2.js:87 | assigning to a present key keeps the keys; a new key goes last |
| `ReportService.AssignValues` | test/fixture/bad-example2.js:87 | with distinct keys, assigning replaces the value under that key only |
| `ReportService.AssignDistinct` | test/fixture/bad-example2.js:87 | assignment keeps the keys distinct |
| `ReportService.FirstOccurrences` | test/fixture/bad-example2.js:80-88 | the distinct categories, each once, no more than were given |
| `ReportService.IssuesFor` | test/fixture/bad-example2.js:80-88 | the loop fails exactly when there are no ids or some category is empty, with the message of the search that throws |
| `ReportService.IssuesForEntries` | test/fixture/bad-example2.js:80-88 | after the loop the keys are the categories in order of first appearance, each holding its own category's search |
| `ReportService.CountMatchesSearches` | test/fixture/bad-example2.js:100-103 | the issue count sums the sizes of the searches stored in the object |
| `ReportService.IssueCount` | test/fixture/bad-example2.js:100-103 | the sum of the entries' issue-list lengths; IssueCountOverDistinctCategories relates it to one search per distinct category |
| `ReportService.IssueCountOverDistinctCategories` | test/fixture/bad-example2.js:80-103 | the issue count counts each distinct category's search once: a repeated category overwrites its entry rather than adding to the count |
| `ReportService.CheckReportParams` | test/fixture/bad-example2.js:47-66 | each guard's message in source order, including 'Team not found: ' plus the id when the lookup fails and 'Team has no users' for a missing or empty user list; success exactly when every guard passes, returning the team found |
| `ReportService.AddReportOutcome` | test/fixture/bad-example2.js:46-106 | a failed guard throws its message; a success reports 'Report created successfully' for the requested team |
| `ReportService.AddReportSucceeds` | test/fixture/bad-example2.js:68-106 | once the guards pass, the report is created exactly when no category is empty, and its issue count is the sum of the distinct categories' search sizes |
| `ReportService.AddReport` | test/fixture/bad-example2.js:46-106 | the guards, the loop filling the issues object and the save return or throw what the specification function says |
| `ReportService.AssigneeClause` | test/fixture/bad-example2.js:25 | one 'assignee = "id"' clause; Jql joins one per id |
| `ReportService.JqlSplits` | test/fixture/bad-example2.js:27 | the JQL is the text before the category, the category itself, and the text after it |
| `ReportService.MiddleDetermined` | test/fixture/bad-example2.js:27 | two texts with the same surrounding parts are equal only when their middles are, which lets JqlDeterminesCategory read the category back |
| `ReportService.Distinct` | test/fixture/bad-example2.js:87 | no key twice; AssignDistinct states assignment keeps the issues object's keys distinct |
| `ReportService.IsKey` | test/fixture/bad-example2.js:87 | the test for one key; AssignKeys and AssignValues state the effect of assigning under it |
| `ReportService.SearchFor` | test/fixture/bad-example2.js:81-86 | the search one category makes; IssuesForEntries states each key holds its own category's search |
| `ReportService.IssuesForStep` | test/fixture/bad-example2.js:80-88 | one more turn of the loop either throws the search's message for the whole loop or assigns the search under that category |
| `ReportService.SumSearched` | test/fixture/bad-example2.js:100-103 | the sizes of the searches summed over keys; CountMatchesSearches states the issue count equals it |
| `ReportService.AccountId` | test/fixture/bad-example2.js:68 | one user's account id; QueryFor searches for the team's ids in user order |
| `ReportService.ReportName` | test/fixture/bad-example2.js:32-35 | the team name, a space and the formatted date (the formatting is a parameter); AddReportOutcome hands this name to createReport |
| `ReportService.QueryFor` | test/fixture/bad-example2.js:68-86 | the team's account ids in user order and the two dates; AddReportSucceeds states the issue count sums the searches made with it |
| `ReportServiceSteps.SearchUserIssuesSteps` | test/fixture/good-example2.js:10-30 | this file's searchUserIssues gives the same result as the one-function file's |
| `ReportServiceSteps.ValidateReportParams` | test/fixture/good-example2.js:42-65 | the nested validation throws or returns the team exactly as the one-function guards do |
| `ReportServiceSteps.BuildReportData` | test/fixture/good-example2.js:67-91 | the loop builds the same issues object as the one-function loop, or throws the same message |
| `ReportServiceSteps.AddReportSteps` | test/fixture/good-example2.js:41-113 | the step version returns or throws exactly what the one-function addReport does |

Members without a row are supporting definitions; each is used by the rows named here, whose contracts state what it contributes:

- `Js` (js.dfy), the JavaScript built-ins and their algebra. `Split`, `Join`, `Map` and the `Split`/`Join` lemmas carry `ReplaceInlineCode.PipelineIsScan`, `ReportService.Jql` and `ReplaceCommandWithFunction.GenerateReport`. `Trim`, `TrimStart`, `TrimEnd`, `IsSpace`, `ToLower`, `ToUpper`, `LowerChar`, `UpperChar`, `StartsWith` and the lower/trim lemmas carry `GuardClauses.NormalizeEmail`, `GuidelineExtractor.GuidelineText` and `ReplaceInlineCode.CapWord`. `Filter`, `FindIndex`, `IsSubsequence` and the filter lemmas carry the `ReplaceLoopWithPipeline`, `SubstituteAlgorithm.DropKent`, `EncapsulateCollection.TotalAfterRemove` and `GuidelineExtractor.ExtractGuideline` rows. `Sum` and the sum lemmas carry `ReplaceTempWithQuery.ReduceTotalIsSum`, `SplitVariable.SumOfDoubled` and `ReportService.CountMatchesSearches`. `MathMax` and `Extended` carry `SubstituteAlgorithm.Example2After`. `DigitChar`, `NatToString` and `IntToString` give `String(n)` for the fixture rows. `Console` and `Console.Log` are the captured `console.log` output that every logging method's row describes.
- Decimal text of fixture numbers and literal concatenations, used only by the fixture rows of the same module: `CombineFunctions.Digits15`, `Digits2024`, `ShortText`, `LongText`, `FixtureShort`, `FixtureLong` (for `CombineFunctions.Example3Fixture`); `ReplaceCommandWithFunction.Digits100And200`, `FixtureLines`, `FixtureCsv` (for `ReplaceCommandWithFunction.Example3Fixture`); `ExtractVariable.UrlHeadText`, `UrlText` (for `ExtractVariable.Example3Fixture`).
- Proof steps of the rows they sit beside: `ExtractVariable.QueryAtEnd` (for `ExtractVariable.BuildApiUrlBefore`), `UrlRegrouped` and `UrlStartsWithBase` (for `ExtractVariable.BuildApiUrl`); `GuidelineExtractor.TrimStartSpaces` (for `GuidelineExtractor.PrincipleLineLiteral`, `ExampleNextBulletStops` and `BoldBulletIsPrinciple`), `JoinHead` and `TrimOfLeadingSolid` (for `GuidelineExtractor.TrimmedJoinIsGuideline`); `RenameVariable.NonNegativeProduct` (for `RenameVariable.AreaMonotone` and `InventoryValueNonNegative`).
- Predicates and measures named in other rows' contracts: `AlphaVantageHelpers.AttemptsLeft` (the bound on fetches and the termination measure in `AlphaVantageHelpers.AttemptRun`), `CombineFunctions.NonNegativeItem` (`CombineFunctions.SubtotalNonNegative`), `ExtractClass.StartsWithSendingTo` (`ExtractClass.EmployeeBefore.SendNotification`, `ExtractClass.ContactInfo.SendNotification`, `ExtractClass.Example2Before`), `GuardClauses.AtMostOneFlag` (`GuardClauses.Example1Before`).

## Left out

- Floating point: multipliers such as 0.95, 0.2 or 0.08 are exact `real` arithmetic. IEEE-754 rounding is not modelled. Where a result is a float only through such a product, the model compares exact values.
- Dates and clocks: `new Date(...)`, `Date.now()`, `getFullYear()` and date-fns `format` are not modelled. Days, years and clock readings enter as integer parameters, and formatted dates as strings given by a parameter.
- Asynchronous code: `await`, promises and `setTimeout` are not modelled. Sleeps are returned as lists of delays, and the outcomes of `fetch` are scripted per attempt.
- `JSON.parse`, `JSON.stringify`, `URL` and `URLSearchParams`: parsing and serialisation are parameters or left out, as the lines below say.
- Regular expressions: the guideline extractor's three patterns are written as predicates. `\s` is the `Js.IsSpace` set: the ASCII white space, no-break space, byte-order mark and the line and paragraph separators. Other Unicode space characters are not included.
- `toLowerCase`/`toUpperCase` map ASCII letters only.
- Strings are sequences of Unicode scalar values, and `|s|` counts those. JavaScript's `length` and `slice` count UTF-16 code units, so for text outside the Basic Multilingual Plane (an emoji, say) the lengths differ. This affects the ten-character phone-number check and FormatPhone's slices in ReplacePrimitiveWithObject, the three-character currency check in ReplaceFunctionWithCommand.PaymentCommand.Validate, and the original and compressed sizes in Strategy. For example, JavaScript counts "📞12345678" as 10 characters where the model counts 9.
- `readFileSync` of `.claude/claude.md`: the file's text is a parameter.
- External services (`searchIssues`, `findTeamById`, `createReport`) are pure functions passed in. The model therefore gives a repeated search the same answer, which a live service need not do.
- `test/gemini/guard-clauses.test.js`, `test/gemini/e2e.test.js` and `test/gemini/client.js` are not part of this model. They call an external generative-AI API and read files.
- `vitest.config.js` is test-runner configuration and is not part of this model.
- `src/situational/hide-delegate/example.js` and `src/situational/remove-middle-man/example.js` are not part of this model. They hold only constructors that store fields and getters that return them.
- `console.log` is an append to a captured list of lines, not real output.
- SplitVariable.Example2Before: the diagonal `Math.sqrt(30² + 40²)` is not modelled (a floating-point square root); only the horizontal distance is compared.
- replace-inline-code-with-function-call example 1 (date formatting through `new Date(...)` and `getMonth`/`getDate`/`getFullYear`) is not modelled: it depends on date parsing and the local time zone.
- replace-inline-code-with-function-call example 3 (`total.toFixed(2)` on a floating-point product) is not modelled: the result depends on IEEE-754 rounding.
- ExtractClass.Example3Before: dates are day numbers counted from 2024-01-01, so `duration` is in days where `Date` subtraction gives milliseconds (a constant factor of 86 400 000 between the two); time zones and time of day are not modelled.
- replace-magic-literal example 3 (the Promise/setTimeout retry with a mocked fetch) is not modelled: it is asynchronous code driven by timers. The same retry policy, over scripted outcomes, is modelled for the AlphaVantage client.
- ExtractVariable.BuildApiUrl: `params` is an insertion-ordered list of pairs, which is the order `Object.keys` gives for non-numeric keys; JavaScript's rule that integer-like keys come first in ascending order is not modelled.
- ExtractVariable.IsEligible: birth and join dates enter as their calendar years, and the current year as a parameter (`new Date().getFullYear()` is a clock reading).
- ReplaceCommandWithFunction.GenerateReport: `JSON.stringify` is a parameter; its serialisation is not modelled, only that the json branch returns it.
- ReplaceFunctionWithCommand.Example2After: the module-level queue is a parameter, so a run after earlier runs re-executes their commands; the model says so rather than assuming an empty queue.
- ReplaceErrorCode.ParseJson: `JSON.parse` is a parameter returning a value or the message of its SyntaxError; the JSON grammar is not modelled.
- GuidelineExtractor.FromSection: the final emptiness check at extract-guideline.js:67-69 is kept, but it can never fire, as GuidelineText's contract shows.
- GuidelineExtractor.ExtractGuideline: the markdown text is a parameter; reading `.claude/claude.md` from disk and the default section name are not modelled. Regex `\s` is approximated by the Js.IsSpace set of white-space characters.
- AlphaVantage clients: `buildUrl`, `extractFunctionFromUrl`, `fetchFinancialData` and the four `get…` wrappers build or parse URLs with URL/URLSearchParams, so they are not modelled; the fetch policy takes the outcomes of `fetch(url)` directly.
- AlphaVantage clients: `response.json()` is assumed to succeed; its parsed body is part of the scripted response. A rejected `fetch` ends the call with its reason.
- AlphaVantage clients: `delay(ms)` is recorded as a list of sleeps, not performed, and `Date.now()` is read through parameters.
- AlphaVantage clients: the constructors require a non-empty key. CreateClient and CreateInlinedClient model the throwing path.
- ReportService: `findTeamById`, `searchIssues`, `createReport` and date-fns `format` are external services, passed in as functions. Their own failures (a rejected promise) are not modelled.
- ReportService.Assign: the issues object is a list of entries in insertion order, one per distinct category. JavaScript lists integer-like keys such as "1" first, and the model does not capture that; the issue count, a sum, does not depend on the order. A category named "__proto__" is not modelled either: `issues['__proto__'] = …` sets the object's prototype instead of adding an entry, so JavaScript's report would lack that category.
- ReportService.IssueCount: sums the issues of every entry, including one for a category named "__proto__"; JavaScript's `Object.values` would skip it, because the assignment set the prototype instead of adding a key.
- ReportService.SearchUserIssues: `typeof statusCategory !== 'string'` has no counterpart, because categories are strings in the model. Missing or falsy parameters are modelled as empty strings.

## Findings

| source | as written | input that shows it | evidently intended | confidence | as-written member | corrected member |
|---|---|---|---|---|---|---|
| src/general/guard-clauses/example.js:118 | `if (config.timeout <= 0) throw …`: the guard-clause version throws only for a present timeout that is at most 0 | `{ apiKey: 'k', endpoint: 'e' }` with no timeout: `undefined <= 0` is false, so example3After returns a service, while example3Before's `config.timeout > 0` is false and it throws 'Timeout must be positive' | the guard is the negation of Before's test, `!(config.timeout > 0)`, so that a missing timeout is rejected as in Before | not executed | `GuardClauses.Example3After`, `GuardClauses.Example3MissingTimeout` | `GuardClauses.Example3AfterCorrected` |
