# Kiosk point-of-sale client: a verified model of its core rules

This project models, in Dafny, the rules at the heart of the Tabin kiosk and
point-of-sale desktop client: what a promotion gives off a cart, what the
cart store keeps, what happens during a card payment and the order that
follows it, how the payment modal checks amounts, how receipts and labels
are queued and printed, how the sales report adds up a day range of orders,
when each of the two stores sharing the kiosk is open, and how the
customer-details form is validated. Every file below corresponds to one
source file (the helpers of `src/util/util.tsx` are split over four):

| file | module | models |
|---|---|---|
| text.dfy | Wrappers, Text | JavaScript's `null`/`undefined` as `Option`, truthiness of strings, and the decimal rendering of numbers in template strings |
| util_promotion.dfy | Promotions | `getMatchingPromotionProducts` and `getMaxDiscountedAmount`: loops proved against specification functions |
| util_schedule.dfy | Schedule | `isPromotionAvailable`, `isItemAvailable` and the weekday mapping |
| util_stock.dfy | Stock | the stock-quantity helpers, `getQuantityRemainingText`, `isItemSoldOut` |
| util_local_time.dfy | LocalTime | `toLocalISOString` and its `pad` |
| cart.dfy | Cart | the cart store as a class: line edits, total, quantity aggregates, promotion filter and best-promotion choice |
| checkout.dfy | Checkout | the checkout page as a class: terminal flows, order submission, `createOrder`, pay later, the countdown |
| payment_modal.dfy | PaymentModal | the payment modal as a class: amount checks, screen choice, accepted summary, payment removal |
| receipt_printer.dfy | ReceiptPrinter | the failed-print queue as a class, the retry pass, new-order polling and filtering, label jobs, print-server classification |
| sales_report.dfy | SalesReport | `processSalesData` |
| begin_order.dfy | BeginOrder | `convertTo12HourFormat` and the opening-hours checks of the two stores |
| customer_information.dfy | CustomerInformation | the customer-details form as a class: `onNext` validation and the change handlers |

Money is in integer cents; discount amounts are `real`, because a percentage
discount divides by 100. The clock, the network, local storage, the Electron
bridge, the vendor terminal SDKs and the GraphQL mutations are outside the
model: what they answer is a parameter, and what is sent to them is part of
the result or the new state.

Code that changes state step by step is imperative Dafny: classes whose
fields are the page's or store's state, and methods with the source's loops.
Each method is proved equal to a specification function, and the properties
are stated as lemmas about those functions.

Where the type declarations and the code disagree, the model follows the code:
- The customer-information request type declared in `src/graphql/customQueries.tsx` has no `customFields`. The page reads `customFields` anyway, so the model's request carries them, possibly absent.
- `checkout.tsx` and `paymentModal.tsx` pass different props. Each page is modelled on its own terms, and the modal takes `paidSoFar`, `payments` and `paymentAmounts` as inputs.
- The cart imports a `processPromotionDiscounts` that `util.tsx` does not define. The model takes it as `getMaxDiscountedAmount` applied to the matcher's result.

## Model

| member | source | states |
|---|---|---|
| Text.NatToString | src/util/util.tsx:228 | the decimal rendering of a number has at least one digit, a single digit exactly below 10, and no leading zero |
| Text.ParseNatToString | src/util/util.tsx:228 | reading the decimal rendering back yields the number |
| Text.NatToStringInjective | src/util/util.tsx:228 | two numbers render the same exactly when they are equal |
| Text.IntToStringRoundTrip | src/util/util.tsx:231-232 | the rendering of an integer, with a minus sign when negative, reads back as that integer |
| Text.PadToOrder | src/util/util.tsx:226-229 | zero-filled numbers of one width compare as strings exactly as the numbers compare, and are equal exactly when the numbers are |
| Promotions.Lookup | src/util/util.tsx:296-297 | reading `obj[id]` yields the value stored under `id`, and nothing exactly when no property has that key |
| Promotions.Put | src/util/util.tsx:339-342 | after `obj[id] = e`, `id` reads as `e`, every other key reads as before, and no other property appears |
| Promotions.Values | src/util/util.tsx:299 | `Object.values` lists the stored values in insertion order |
| Promotions.InCategory | src/util/util.tsx:299-303 | the products collected for a category are product aggregates of the cart |
| Promotions.CategoryCandidates | src/util/util.tsx:295-305 | every candidate a category condition contributes is a product aggregate of the cart |
| Promotions.ProductCandidates | src/util/util.tsx:307-313 | every candidate a product condition contributes is a product aggregate of the cart |
| Promotions.Candidates | src/util/util.tsx:292-313 | `matchingProductsTemp` holds only product aggregates of the cart |
| Promotions.Insert | src/util/util.tsx:322-329 | inserting one candidate into the ordered list adds exactly that candidate |
| Promotions.InsertSorted | src/util/util.tsx:322-329 | inserting into a list ordered by the comparator keeps it ordered |
| Promotions.InsertRankAtLeast | src/util/util.tsx:322-329 | inserting an entry whose rank is at least a bound into a list bounded below keeps every rank at least that bound |
| Promotions.ConsSorted | src/util/util.tsx:322-329 | an entry put in front of an ordered list whose ranks are all at least its own gives an ordered list |
| Promotions.SortByPrice | src/util/util.tsx:320-329 | the sorted copy is ordered by the comparator and is a permutation of the candidates |
| Promotions.SortByPriceOrder | src/util/util.tsx:322-328 | with `applyToCheapest` prices ascend, otherwise they descend |
| Promotions.TakeWithinMinQuantity | src/util/util.tsx:331-345 | the greedy step takes at most `minQuantity` units, and exactly `minQuantity` when the candidates hold enough |
| Promotions.TakeCutsCandidates | src/util/util.tsx:336-343 | each entry written is a candidate, or a copy of one with its quantity cut down to what was still needed |
| Promotions.MatchFromFailsIff | src/util/util.tsx:289-347 | from any partial result, the matcher fails exactly when some remaining group counts fewer units than its `minQuantity` |
| Promotions.MatchFailsIff | src/util/util.tsx:286-349 | groups are AND-ed: the result is `null` exactly when some group falls short, and no groups gives `{}` |
| Promotions.PutAllDrawnFromCart | src/util/util.tsx:339-342 | writing candidates under their own ids keeps every stored value drawn from the cart |
| Promotions.MatchFromDrawnFromCart | src/util/util.tsx:289-347 | each group's writes keep every stored value drawn from the cart |
| Promotions.MatchedEntriesComeFromCart | src/util/util.tsx:276-350 | every matched value sits under its own id and is a product aggregate of the cart, possibly with a smaller quantity |
| Promotions.PartialConsumptionExample | src/util/util.tsx:331-345 | 3 units of a product in a category whose group needs 2 give a match holding that product with quantity 2 |
| Promotions.CollectGroup | src/util/util.tsx:292-313 | the counting loops compute the counted quantity and the candidate list of one group |
| Promotions.FilterCategory | src/util/util.tsx:298-302 | the inner loop collects exactly the cart products of the category, in cart order |
| Promotions.ConsumeMinQuantity | src/util/util.tsx:331-345 | the greedy loop writes exactly the greedy selection into the matched object |
| Promotions.TakeStep | src/util/util.tsx:331-345 | one greedy step: with nothing left to take the object is unchanged; a candidate smaller than what is left is taken whole and the rest is taken from the remaining candidates; otherwise the candidate is cut to what is left and nothing more is taken |
| Promotions.ConsumeOne | src/util/util.tsx:333-344 | one turn of the greedy loop keeps "what is written so far plus what the rest of the candidates will write" equal to the greedy selection |
| Promotions.GetMatchingPromotionProducts | src/util/util.tsx:276-350 | the matcher returns `null` exactly when some group falls short, and `{}` for no groups |
| Promotions.RuleCandidates | src/util/util.tsx:372-402 | each discount rule yields one candidate amount, in order |
| Promotions.MaxFromIsMaximum | src/util/util.tsx:372-407 | the running maximum is at least its start value and every candidate, and is the start value or one of the candidates |
| Promotions.MaxDiscountIsLargestCandidate | src/util/util.tsx:352-410 | the result is never negative, is 0 when there is neither a truthy total nor a match, and otherwise is 0 or the largest candidate |
| Promotions.EntireOrderPercentageExample | src/util/util.tsx:362-395 | 10 percent of a 2000-cent order is 200 |
| Promotions.BestOfTwoRulesExample | src/util/util.tsx:372-407 | the rules are alternatives: FIXED 100 and PERCENTAGE 5 on 3000 give the larger one, 150 |
| Promotions.SumDiscountable | src/util/util.tsx:367-369 | the loop sums price times quantity over the matched values |
| Promotions.GetMaxDiscountedAmount | src/util/util.tsx:352-410 | the calculator returns the specified maximum, which is never negative |
| Schedule.DayData | src/util/util.tsx:177-221 | `getDay` 0..6 selects Sunday..Saturday's slots; any other number gives no slots |
| Schedule.IsAvailable | src/util/util.tsx:23-101 | with no availability or no slots today the item is available, otherwise exactly when some slot covers the moment |
| Schedule.SlotEndIsInclusiveToTheMillisecond | src/util/util.tsx:34-53 | a 09:00-17:00 slot covers 09:00:00.000 and 17:00:00.000 but not one millisecond outside them |
| Stock.QuantityAvailable | src/util/util.tsx:103-150 | what is available plus what the cart holds is the stock |
| Stock.IsQuantityAvailable | src/util/util.tsx:119-167 | an item can be added when it has no stock limit (absent or 0) or the cart holds fewer units than the stock |
| Stock.AddingOneUsesOne | src/util/util.tsx:103-117 | adding one unit of an item lowers its availability by one and leaves other items unchanged |
| Stock.LimitReachedAtStock | src/util/util.tsx:119-134 | with a limit of n, n-1 units in the cart still allow one more, and n units stop it |
| Stock.QuantityRemainingText | src/util/util.tsx:169-175 | 1 reads "Last one!", any other quantity reads "<n> left!" |
| Stock.LastOneDiffersFromCount | src/util/util.tsx:169-175 | "Last one!" is never the text of a count |
| Stock.QuantityRemainingTextInjective | src/util/util.tsx:169-175 | two quantities show the same badge text only when they are equal |
| Stock.IsItemSoldOut | src/util/util.tsx:15-21 | an item is sold out exactly when its flag is set or its sold-out date is today |
| Stock.SoldOutDays | src/util/util.tsx:15-21 | the flag marks an item sold out on every day; without it a sold-out date marks exactly that one day, so the mark lapses the next day; with neither the item is never sold out |
| LocalTime.Pad | src/util/util.tsx:226-229 | `pad` writes the magnitude in decimal, with at least two digits and exactly two below 100 |
| LocalTime.PadIsTwoDigits | src/util/util.tsx:226-229 | on 0..99 `pad` is the two-digit zero-filled rendering |
| LocalTime.FixedDiffersOnlyInMilliseconds | src/util/util.tsx:223-246 | the corrected rendering differs from the original only in the milliseconds, and not at all from 100 ms on |
| LocalTime.AppendField | src/util/util.tsx:231-245 | appending one fixed-width field compares strings field by field |
| LocalTime.ThroughHoursOrder | src/util/util.tsx:231-238 | the "yyyy-MM-ddTHH" prefix sorts as the hours it names |
| LocalTime.ThroughMonthsOrder | src/util/util.tsx:231-234 | the "yyyy-MM" prefix sorts as the months it names, and two prefixes are equal exactly for the same month |
| LocalTime.LeadingFields | src/util/util.tsx:231-234 | two zero-filled fields with a separator sort as the pairs of numbers they hold, and are equal exactly when both numbers are |
| LocalTime.ThroughDaysOrder | src/util/util.tsx:231-236 | the "yyyy-MM-dd" prefix sorts as the days it names, and two prefixes are equal exactly for the same day |
| LocalTime.FixedOrderIsTimeOrder | src/util/util.tsx:223-246 | with three-digit milliseconds the strings sort exactly as the times they name |
| LocalTime.MillisecondsOrderInverted | src/util/util.tsx:243-244 | as written, 10:00:00.050 renders as ".50", which sorts after the later 10:00:00.123 |
| LocalTime.SameUpToMilliseconds | src/util/util.tsx:231-243 | two times that differ only in their milliseconds render the same text before the milliseconds |
| LocalTime.MillisecondDigits | src/util/util.tsx:226-229 | `pad` leaves 123 as "123" and 50 as "50" |
| Cart.LinesTotalConcat | src/context/cart-context.tsx:314-332 | the total adds up over the lines |
| Cart.LinesTotalEdit | src/context/cart-context.tsx:356-399 | deleting a line removes exactly its total, and replacing it swaps exactly its total |
| Cart.PreselectedModifiersAreFree | src/context/cart-context.tsx:321-326 | modifiers at or below their preselected quantity add nothing |
| Cart.PreselectedGroupsAreFree | src/context/cart-context.tsx:320-328 | groups of such modifiers add nothing |
| Cart.PreselectedLineCostsItsPrice | src/context/cart-context.tsx:318-328 | such a line costs its price times its quantity |
| Cart.GroupsChargeStep | src/context/cart-context.tsx:320-328 | the modifier charge accumulates group by group |
| Cart.ModifiersChargeStep | src/context/cart-context.tsx:321-327 | the modifier charge accumulates modifier by modifier |
| Cart.LinesTotalStep | src/context/cart-context.tsx:318-329 | the total accumulates line by line |
| Cart.RecalculateTotal | src/context/cart-context.tsx:314-332 | the loops compute the specified total; no line list gives 0 |
| Cart.AddModifiersStep | src/context/cart-context.tsx:280-305 | the aggregates accumulate modifier by modifier |
| Cart.AddGroupsStep | src/context/cart-context.tsx:279-306 | the aggregates accumulate group by group |
| Cart.AddLinesStep | src/context/cart-context.tsx:253-307 | the aggregates accumulate line by line |
| Cart.AddModifierQuantities | src/context/cart-context.tsx:281-304 | one modifier bumps the product aggregate of the product it stands for, or else its own modifier aggregate |
| Cart.AddLineQuantities | src/context/cart-context.tsx:254-306 | one line bumps its category and product aggregates and then applies its modifiers |
| Cart.UpdateCartQuantities | src/context/cart-context.tsx:247-312 | the loops build the specified aggregates; no line list gives empty ones |
| Cart.AddModifiersKeepsCategories | src/context/cart-context.tsx:279-306 | modifiers never touch the category aggregate |
| Cart.AddGroupsKeepsCategories | src/context/cart-context.tsx:279-306 | modifier groups never touch the category aggregate |
| Cart.AddModifiersKeepsProducts | src/context/cart-context.tsx:293-304 | modifiers that stand for no product never touch the product aggregate |
| Cart.AddGroupsKeepsProducts | src/context/cart-context.tsx:293-304 | groups of such modifiers never touch the product aggregate |
| Cart.SumValuesPut | src/context/cart-context.tsx:256-263 | overwriting a value changes the summed quantity by the difference |
| Cart.BumpLookup | src/context/cart-context.tsx:254-264 | a bump adds to the existing value's quantity or creates the new entry, and leaves other keys alone |
| Cart.CategoriesAreCategoryQuantities | src/context/cart-context.tsx:254-264 | the category aggregate is the fold of each line bumping its category |
| Cart.SumValuesBump | src/context/cart-context.tsx:254-264 | a bump adds its delta, or the new entry's quantity, to the summed quantity |
| Cart.CategoryAggregateIsSum | src/context/cart-context.tsx:254-264 | a category has an aggregate exactly when some line is in it, and its quantity is the sum over those lines |
| Cart.HasCategoryStep | src/context/cart-context.tsx:253-254 | a list has a category when its prefix has it or its last line is in it |
| Cart.CategoryAggregateFromFirstLine | src/context/cart-context.tsx:258-263 | a category aggregate keeps the id, name and price of the first line in that category |
| Cart.FirstOfCategoryExtends | src/context/cart-context.tsx:254-264 | the first line of a category in a prefix of the cart is still the first line of that category in the whole cart |
| Cart.FirstOfCategoryAtEnd | src/context/cart-context.tsx:254-264 | the last line is the first of its category when no earlier line has that category |
| Cart.CategoryAggregatesSumToLineQuantities | src/context/cart-context.tsx:254-264 | summed over all categories, the aggregates count every line's quantity once |
| Cart.ProductsAreProductQuantities | src/context/cart-context.tsx:267-277 | without product-modifiers the product aggregate is the fold of each line bumping its product |
| Cart.ProductAggregateIsSum | src/context/cart-context.tsx:267-277 | a product aggregate's quantity is the sum over the lines of that product |
| Cart.CartQuantitiesAreSums | src/context/cart-context.tsx:247-312 | the built aggregates are those sums, stated on the line list |
| Cart.ProductModifierCopiesLine | src/context/cart-context.tsx:281-292 | for every line and product-modifier: a product seen first gets a copy of the line, with the line's quantity and not quantity times modifier quantity; an existing entry grows by quantity times modifier quantity; every other aggregate is unchanged |
| Cart.ProductModifierCopiesLineExample | src/context/cart-context.tsx:285-291 | an instance: a line of 2 with a product-modifier chosen 3 times records 2 units under the line's id |
| Cart.PromotionsOnOffer | src/context/cart-context.tsx:101-121 | the filter keeps exactly the auto-applied promotions for this platform that are running now and have availability that covers now |
| Cart.Offer | src/context/cart-context.tsx:206-241 | a promotion that is not skipped offers its own discount, and that discount is positive |
| Cart.Offers | src/context/cart-context.tsx:205-242 | one offer per available promotion, in order |
| Cart.BestOfferIsFirstLargest | src/context/cart-context.tsx:235-241 | the choice is none exactly when nothing is offered, and otherwise the first of the largest offers |
| Cart.ChosenPromotionIsBest | src/context/cart-context.tsx:199-245 | the applied promotion is none when nothing qualifies, else a positive first-largest offer of one of the promotions |
| Cart.SkippedPromotions | src/context/cart-context.tsx:206-209 | without an order type, outside the promotion's order types or below its minimum spend, a promotion is skipped |
| Cart.SubTotalOf | src/context/cart-context.tsx:87-93 | the subtotal plus the applied discount is the total; no promotion leaves the total |
| Cart.CartStore.constructor | src/context/cart-context.tsx:74-85 | the store starts empty, with consistent derived state |
| Cart.CartStore.SetProducts | src/context/cart-context.tsx:351-353 | storing a line list also stores its total and aggregates, and nothing else changes |
| Cart.CartStore.AddItem | src/context/cart-context.tsx:342-354 | the line is appended (or becomes the list), the total grows by the line's total, and the aggregates follow |
| Cart.CartStore.UpdateItem | src/context/cart-context.tsx:356-368 | only the line at the index is replaced, and the total swaps that line's total; with no list nothing happens |
| Cart.CartStore.UpdateItemQuantity | src/context/cart-context.tsx:370-385 | only the quantity of the line at the index changes; with no list nothing happens |
| Cart.CartStore.DeleteItem | src/context/cart-context.tsx:387-399 | the line at the index is removed, later lines move up, and the total drops by its total |
| Cart.CartStore.ClearCart | src/context/cart-context.tsx:401-412 | every field returns to its initial value except the promotions on offer |
| Cart.CartStore.RefreshSubTotal | src/context/cart-context.tsx:87-93 | the subtotal is recomputed from the total and the promotion, and nothing else changes |
| Cart.CartStore.FilterAvailablePromotions | src/context/cart-context.tsx:95-124 | the promotions on offer become the filtered list, or none without a restaurant |
| Cart.CartStore.ReevaluatePromotion | src/context/cart-context.tsx:199-245 | with no promotions or no lines the promotion is kept, otherwise it becomes the best offer |
| Cart.SelectPromotionsOnOffer | src/context/cart-context.tsx:98-121 | the filter loop keeps, in order, the promotions on offer |
| Cart.ChooseBestPromotion | src/context/cart-context.tsx:203-242 | the choice loop finds the first strictly largest offer |
| Cart.ChosenPromotionLowersSubTotal | src/context/cart-context.tsx:87-93 | once a promotion is applied the subtotal is strictly below the total |
| Cart.StalePromotionAfterEmptying | src/context/cart-context.tsx:199-201 | deleting the last line keeps the promotion that was applied |
| Checkout.SmartpayVerdict | src/components/page/checkout.tsx:473-492 | only Accepted counts as success; every other answer fails, and Declined, Cancelled and DeviceOffline each carry a message |
| Checkout.WindcaveVerdict | src/components/page/checkout.tsx:504-520 | only Accepted counts as success; every other answer fails, and Declined and Cancelled carry a message |
| Checkout.VerifoneVerdict | src/components/page/checkout.tsx:535-570 | only Approved counts as success; SettledOk and TransactionInProgress leave the outcome alone; every other answer fails with a message |
| Checkout.TerminalsAgreeOnDeclineAndCancel | src/components/page/checkout.tsx:481-552 | declined and cancelled payments give the same outcome and message on all three terminals |
| Checkout.VerifoneMessageIdentifiesOutcome | src/components/page/checkout.tsx:543-569 | on Verifone, different failures show different messages |
| Checkout.StripLosesOnlyEmptiness | src/components/page/checkout.tsx:411-427 | a stripped line has no empty key left, and reading it back loses nothing except an empty note |
| Checkout.StripAll | src/components/page/checkout.tsx:411-427 | every product of the request is stripped, in order |
| Checkout.CopyAll | src/components/page/checkout.tsx:361 | the JSON copy keeps every line, in order |
| Checkout.OrderChecksInOrder | src/components/page/checkout.tsx:327-345 | the request is built exactly when there is a user, an order type, a restaurant and at least one line, and the checks throw in that order |
| Checkout.OrderRequestContents | src/components/page/checkout.tsx:357-427 | the request carries the cart's figures and stripped lines; an empty table or note is left out; auto-completing restaurants get a completed, paid order |
| Checkout.RequestFields | src/components/page/checkout.tsx:357-427 | field by field, the request is the assembled request with the auto-complete overrides, the empty table and note removed and the products stripped |
| Checkout.StrippedLines | src/components/page/checkout.tsx:420-427 | every stripped line is clean and gives the cart line back, up to an empty note |
| Checkout.OrderAmountsAddUp | src/components/page/checkout.tsx:357-369 | when the cart's subtotal follows its promotion, the request's subtotal plus discount is its total |
| Checkout.RequestAmounts | src/components/page/checkout.tsx:357-369 | the request carries the cart's subtotal and total, and the promotion's discounted amount exactly when there is a promotion |
| Checkout.CreateOrder | src/components/page/checkout.tsx:324-443 | building the request and deleting keys in place gives the specified request or thrown value |
| Checkout.StripProducts | src/components/page/checkout.tsx:411-427 | the deletion loop strips each product |
| Checkout.MessageOf | src/components/page/checkout.tsx:316-317 | only an Error object has a message; a thrown string has none |
| Checkout.AfterReset | src/components/page/checkout.tsx:586-590 | confirm or retry clears the outcome, the message and the order number and sets the countdown to 10, and changes nothing else |
| Checkout.AfterSubmit | src/components/page/checkout.tsx:306-321 | submitting shows the order number; success records the order and starts a countdown; a failure stores `e.message`, which is empty when createOrder threw a string |
| Checkout.ThrownTerminalErrors | src/components/page/checkout.tsx:493-573 | a thrown terminal error sets the message on every terminal, and only Verifone also marks the payment failed |
| Checkout.OrdersFollowApproval | src/components/page/checkout.tsx:586-593 | a retry places an order only after an approved payment, and that order is paid |
| Checkout.PaidRequest | src/components/page/checkout.tsx:357-375 | a request built after payment is marked paid |
| Checkout.RetryForgetsPreviousAttempt | src/components/page/checkout.tsx:586-593 | a retry does not depend on the outcome, message, order number or countdown left by the last attempt |
| Checkout.PayLaterSubmitsUnpaid | src/components/page/checkout.tsx:595-608 | paying later shows PayLater and submits an order that is paid only when the restaurant auto-completes |
| Checkout.CheckoutPage.constructor | src/components/page/checkout.tsx:99-103 | the page opens with no outcome, no message, no order number and a countdown of 10 |
| Checkout.CheckoutPage.CancelOrder | src/components/page/checkout.tsx:130-133 | cancelling empties the cart and returns to the start page |
| Checkout.CheckoutPage.ClosePaymentModal | src/components/page/checkout.tsx:241-248 | closing the payment modal resets the attempt and hides the modal |
| Checkout.CheckoutPage.SubmitOrder | src/components/page/checkout.tsx:306-321 | onSubmitOrder rethrows exactly when createOrder fails, and otherwise leaves the specified state |
| Checkout.CheckoutPage.SubmitOrderAndReport | src/components/page/checkout.tsx:474-480 | submitting and storing the rethrown message gives the specified state |
| Checkout.CheckoutPage.ApplyTerminalVerdict | src/components/page/checkout.tsx:473-492 | the outcome and message of a terminal answer are stored |
| Checkout.CheckoutPage.DoTransactionSmartpay | src/components/page/checkout.tsx:455-496 | Smartpay charges the subtotal, shows Delay at most once, and then applies its verdict |
| Checkout.CheckoutPage.DoTransactionWindcave | src/components/page/checkout.tsx:498-524 | Windcave charges the subtotal and applies its verdict |
| Checkout.CheckoutPage.DoTransactionVerifone | src/components/page/checkout.tsx:526-575 | Verifone charges the subtotal and applies its verdict |
| Checkout.CheckoutPage.DoTransaction | src/components/page/checkout.tsx:445-453 | exactly one terminal runs for a known provider, and none for any other |
| Checkout.CheckoutPage.ConfirmTotalOrRetry | src/components/page/checkout.tsx:586-593 | the attempt is reset and then the terminal runs |
| Checkout.CheckoutPage.ClickOrderButton | src/components/page/checkout.tsx:235-239 | the order button shows the payment modal and starts an attempt |
| Checkout.CheckoutPage.ClickPayLater | src/components/page/checkout.tsx:595-608 | paying later shows the modal, resets the attempt to PayLater and submits an unpaid order |
| Checkout.CheckoutPage.OpenPayLater | src/components/page/checkout.tsx:596-601 | before submitting, paying later shows the modal with the pay-later outcome, clears the error and the delayed order number, and restarts the countdown at 10; nothing else changes |
| Checkout.CheckoutPage.Tick | src/components/page/checkout.tsx:250-264 | each tick lowers the countdown by one; at zero the cart is emptied and the page returns to the start |
| Checkout.CheckoutPage.RunCountdown | src/components/page/checkout.tsx:250-264 | a countdown runs out after as many ticks as it had seconds, empties the cart and returns to the start page |
| PaymentModal.AmountCheck | src/components/modals/paymentModal.tsx:90-143 | a card amount is accepted exactly when it is positive and within what remains, any other tender exactly when it is not 0; each refusal carries its own message |
| PaymentModal.OnlyEftposIsBounded | src/components/modals/paymentModal.tsx:90-119 | an accepted card payment never takes the paid amount past the subtotal, while cash is accepted for any non-zero amount |
| PaymentModal.ActiveScreen | src/components/modals/paymentModal.tsx:145-247 | an order error wins over everything, then a progress message; the accepted and failed screens appear only for a card result that has arrived |
| PaymentModal.AcceptedSummary | src/components/modals/paymentModal.tsx:284-321 | the accepted screen completes the order exactly when the subtotal is paid, and otherwise offers the positive remainder |
| PaymentModal.Debit | src/components/modals/paymentModal.tsx:589-620 | removing a payment lowers only its own bucket, by its amount |
| PaymentModal.KindTotalConcat | src/components/modals/paymentModal.tsx:589-620 | the total per payment kind adds up over the payment list |
| PaymentModal.KindTotalWithout | src/components/modals/paymentModal.tsx:589-620 | taking a payment out of the list takes its amount out of its own kind's total only |
| PaymentModal.RemovalKeepsBucketsInStep | src/components/modals/paymentModal.tsx:589-620 | removing a payment from its own bucket keeps every bucket equal to its payments' total |
| PaymentModal.PaymentModalView.constructor | src/components/modals/paymentModal.tsx:73-74 | the amount field opens at the subtotal with no error |
| PaymentModal.PaymentModalView.RefreshAmount | src/components/modals/paymentModal.tsx:76-80 | the amount field offers what remains to be paid |
| PaymentModal.PaymentModalView.ChangeAmount | src/components/modals/paymentModal.tsx:633-636 | typing stores the amount and clears the error |
| PaymentModal.PaymentModalView.ClickTender | src/components/modals/paymentModal.tsx:90-143 | a tender button either shows the refusal or confirms the amount, never both |
| PaymentModal.PaymentModalView.Retry | src/components/modals/paymentModal.tsx:82-84 | retrying runs the card checks again on the amount in the field |
| PaymentModal.PaymentModalView.RemoveTransaction | src/components/modals/paymentModal.tsx:589-620 | the payment is spliced out, its bucket is debited, and the buckets stay in step with the payments |
| ReceiptPrinter.ErrorText | src/context/receiptPrinter-context.tsx:313 | the stored error text is the error's message, or "" |
| ReceiptPrinter.WithoutOrder | src/context/receiptPrinter-context.tsx:328 | the filter keeps no entry of the printed order and never grows the queue |
| ReceiptPrinter.WithoutOrderConcat | src/context/receiptPrinter-context.tsx:328 | filtering distributes over a split queue |
| ReceiptPrinter.WithoutOrderMembership | src/context/receiptPrinter-context.tsx:328 | an entry survives the filter exactly when it was queued for another order |
| ReceiptPrinter.WithoutOrderKeepsOthers | src/context/receiptPrinter-context.tsx:328 | a queue without entries of the order is left unchanged |
| ReceiptPrinter.QueueAfterPrint | src/context/receiptPrinter-context.tsx:126-149 | a failed first attempt appends the receipt; a failed retry changes nothing; a successful retry removes the order's entries; a throwing bridge changes nothing |
| ReceiptPrinter.FailThenRetryRestoresQueue | src/context/receiptPrinter-context.tsx:133-142 | a failed first attempt followed by a successful retry gives back the original queue |
| ReceiptPrinter.RetriesRemoveExactlyThePrinted | src/context/receiptPrinter-context.tsx:110-114 | after a round of retries, an entry is still queued exactly when none of its order's retries printed |
| ReceiptPrinter.OrdersOf | src/context/receiptPrinter-context.tsx:110-113 | the retries reprint the queued orders in queue order |
| ReceiptPrinter.PrinterPass | src/context/receiptPrinter-context.tsx:342-388 | one printer prints only orders from other registers that pass its online filter and have products for it; an order from this register ends the whole run |
| ReceiptPrinter.Pairs | src/context/receiptPrinter-context.tsx:354-386 | each receipt of a pass goes to that pass's printer |
| ReceiptPrinter.NewOrderPrintsAreAllowed | src/context/receiptPrinter-context.tsx:333-390 | every receipt sent is for a fetched order from another register, on a printer with a receipt flag, that passes the online filter and has products |
| ReceiptPrinter.DisabledPrinterStopsLaterPrinters | src/context/receiptPrinter-context.tsx:340 | a printer with neither receipt flag ends printing for itself and every later printer |
| ReceiptPrinter.OwnOrderStopsAfterFirstPrinter | src/context/receiptPrinter-context.tsx:346 | an order from this register among the fetched ones leaves only the first printer printing |
| ReceiptPrinter.NewOrderPrintsStep | src/context/receiptPrinter-context.tsx:337-389 | the receipts sent are the first printer's pass, then the rest unless the pass ended the run |
| ReceiptPrinter.NewOrderPrintsStop | src/context/receiptPrinter-context.tsx:340 | the run stops at a printer with neither flag |
| ReceiptPrinter.PrintForPrinter | src/context/receiptPrinter-context.tsx:342-388 | the inner loop computes the printer's pass |
| ReceiptPrinter.PrinterPassStep | src/context/receiptPrinter-context.tsx:342-388 | a printer's pass stops at an order from this register (or an in-store order for an online-receipt printer), and otherwise prints the order when it has products for the printer and goes on |
| ReceiptPrinter.PrintNewOrderReceipts | src/context/receiptPrinter-context.tsx:333-390 | the loops send exactly the specified receipts |
| ReceiptPrinter.PrintAtPrinter | src/context/receiptPrinter-context.tsx:337-388 | one printer's turn: when it stops the whole run, its receipts are everything left to send; otherwise its receipts followed by the later printers' are everything left |
| ReceiptPrinter.JoinSplit | src/context/receiptPrinter-context.tsx:246-250 | joining two lists with ", " is joining each and then joining the two |
| ReceiptPrinter.GroupLines | src/context/receiptPrinter-context.tsx:242-273 | a group takes one line, or two when it has more than two modifiers |
| ReceiptPrinter.GroupLinesListEveryModifier | src/context/receiptPrinter-context.tsx:243-265 | a group's lines read together list its name and every modifier once, in order |
| ReceiptPrinter.LineCommands | src/context/receiptPrinter-context.tsx:253-271 | one text command per modifier line |
| ReceiptPrinter.LabelCommands | src/context/receiptPrinter-context.tsx:224-278 | a label has six fixed functions plus one per modifier line |
| ReceiptPrinter.LabelPayload | src/context/receiptPrinter-context.tsx:279 | corrected payload: the members are numbered in order and separated by single commas |
| ReceiptPrinter.WellFormedAppendPair | src/context/receiptPrinter-context.tsx:252-271 | a comma and a member keep a member list valid |
| ReceiptPrinter.WellFormedJoinLeft | src/context/receiptPrinter-context.tsx:279 | a valid list, a comma and the rest are valid exactly when the rest is |
| ReceiptPrinter.WellFormedJoinRight | src/context/receiptPrinter-context.tsx:279 | a list, a comma and a valid list are valid exactly when the first list is |
| ReceiptPrinter.WellFormedSandwich | src/context/receiptPrinter-context.tsx:279 | the modifier part between the fixed parts decides the payload's validity |
| ReceiptPrinter.FirstGroupPieces | src/context/receiptPrinter-context.tsx:252-271 | as written, the first group's members are valid only when it fits on one line |
| ReceiptPrinter.LaterGroupPieces | src/context/receiptPrinter-context.tsx:252-271 | as written, a later group's members keep a valid list valid |
| ReceiptPrinter.ModifierPiecesWellFormed | src/context/receiptPrinter-context.tsx:242-273 | as written, the modifier part is valid exactly when the first group has at most two modifiers |
| ReceiptPrinter.OneGroupPieces | src/context/receiptPrinter-context.tsx:242-273 | with a single modifier group the modifier part is that group's members, numbered from 4 with no leading comma |
| ReceiptPrinter.LabelPayloadAsWrittenMalformed | src/context/receiptPrinter-context.tsx:239-279 | the payload as written is valid JSON members exactly when there is a modifier group and the first has at most two modifiers |
| ReceiptPrinter.LabelHead | src/context/receiptPrinter-context.tsx:227-236 | the clear, width, header and product-name members are a valid member list |
| ReceiptPrinter.LabelTail | src/context/receiptPrinter-context.tsx:275-278 | the timestamp and print-buffer members are a valid member list |
| ReceiptPrinter.LabelPayloadValidIffModifiers | src/context/receiptPrinter-context.tsx:279 | the payload as written is valid exactly when its modifier part is |
| ReceiptPrinter.UnitsConcat | src/context/receiptPrinter-context.tsx:220-223 | the units add up over the products |
| ReceiptPrinter.UnitsCount | src/context/receiptPrinter-context.tsx:214-223 | with no negative quantity there is one label per unit, as many as the total count |
| ReceiptPrinter.LabelJobs | src/context/receiptPrinter-context.tsx:220-283 | one payload per unit, as printLabel assembles it |
| ReceiptPrinter.LabelsAreNumbered | src/context/receiptPrinter-context.tsx:225-279 | the k-th label reads "Order: <number> (k/N)"; it is valid exactly when its product has modifier groups and the first has at most two modifiers, and then it is the payload with single commas |
| ReceiptPrinter.ModifierEntries | src/context/receiptPrinter-context.tsx:240-272 | when the first group fits on one line, the modifier members are the modifier lines, numbered from 4, with single commas between them |
| ReceiptPrinter.LaterGroupEntries | src/context/receiptPrinter-context.tsx:252-270 | a later group's members, each after its own comma, extend the list by that group's lines, numbered on |
| ReceiptPrinter.HeadCommands | src/context/receiptPrinter-context.tsx:226-236 | the four head members are functions 0 to 3 of the label |
| ReceiptPrinter.LineCommandAt | src/context/receiptPrinter-context.tsx:252-270 | function 4 + j draws the j-th modifier line |
| ReceiptPrinter.TailCommands | src/context/receiptPrinter-context.tsx:274-277 | the last two members are the timestamp and the print command, numbered after the modifier lines |
| ReceiptPrinter.PayloadAsWrittenFacts | src/context/receiptPrinter-context.tsx:221-279 | a label's third function is its header; it is valid exactly when the product has groups and the first has at most two modifiers, and then it is the corrected payload |
| ReceiptPrinter.AsWrittenMember | src/context/receiptPrinter-context.tsx:221-279 | when the first group fits on one line, the i-th member written is function i of the label |
| ReceiptPrinter.AsWrittenIsCorrectedWhenValid | src/context/receiptPrinter-context.tsx:221-279 | when the first group fits on one line, the payload sent is exactly the corrected payload |
| ReceiptPrinter.ProductLabels | src/context/receiptPrinter-context.tsx:223-282 | a product gets one label per unit |
| ReceiptPrinter.JobsOfProduct | src/context/receiptPrinter-context.tsx:220-283 | each product's labels follow the labels of the products before it |
| ReceiptPrinter.UnitsAround | src/context/receiptPrinter-context.tsx:220-224 | the units of the i-th product come right after the units of the products before it, all of them that product |
| ReceiptPrinter.JobAt | src/context/receiptPrinter-context.tsx:220-232 | the k-th label (from 0) is the payload for the k-th unit, numbered k + 1 of the quantity total |
| ReceiptPrinter.JobsRun | src/context/receiptPrinter-context.tsx:220-283 | a run of units of one product receives that product's labels, numbered on from the start of the run |
| ReceiptPrinter.PrintProductLabels | src/context/receiptPrinter-context.tsx:223-282 | the inner loop sends the product's labels, as assembled, and stops at the first rejected one |
| ReceiptPrinter.PrintLabel | src/context/receiptPrinter-context.tsx:211-289 | the as-assembled labels are sent one per unit, in order, and sending stops at the first request the server rejects |
| ReceiptPrinter.SumQuantities | src/context/receiptPrinter-context.tsx:213-217 | the first loop adds up the quantities of all products |
| ReceiptPrinter.PrintNthProduct | src/context/receiptPrinter-context.tsx:220-283 | one product's turn extends the labels sent so far by that product's as-assembled labels, or up to the rejected label when it is among them |
| ReceiptPrinter.RequestStep | src/context/receiptPrinter-context.tsx:183-209 | the first response means poll on ready or progress, return when the request is not complete, and otherwise throw the message for its result or status |
| ReceiptPrinter.CheckStep | src/context/receiptPrinter-context.tsx:155-181 | a status response means poll on ready or progress, throw on error or a bad status, and otherwise the label printed |
| ReceiptPrinter.CheckResult | src/context/receiptPrinter-context.tsx:155-181 | polling fails only with one of the status messages, and completes only on a response that ends it |
| ReceiptPrinter.RequestPrint | src/context/receiptPrinter-context.tsx:183-209 | a duplicated or unrecognised receipt is reported only from the first response, and every failure carries one of the five messages |
| ReceiptPrinter.PrintQueueStore.constructor | src/context/receiptPrinter-context.tsx:63-99 | the store starts from the stored queue and fetch time |
| ReceiptPrinter.PrintQueueStore.StoreFailedPrint | src/context/receiptPrinter-context.tsx:307-319 | the failed receipt is appended to the stored queue, a missing queue reading as empty |
| ReceiptPrinter.PrintQueueStore.RemoveSuccessPrint | src/context/receiptPrinter-context.tsx:321-331 | the printed order's entries leave the queue; a missing queue stays missing |
| ReceiptPrinter.PrintQueueStore.PrintReceipt | src/context/receiptPrinter-context.tsx:126-149 | with the bridge the queue follows the answer; without it nothing happens |
| ReceiptPrinter.PrintQueueStore.RetryFailedPrintQueue | src/context/receiptPrinter-context.tsx:97-121 | every queued receipt is retried in order, more than 3 entries are reported, and a missing queue does nothing |
| ReceiptPrinter.PrintQueueStore.PollNewOrders | src/context/receiptPrinter-context.tsx:47-91 | without a receipt printer nothing is polled; a tick with no stored time, or a stored empty string, only records the time; later ticks print the window's new orders and move the window on |
| ReceiptPrinter.PrintQueueStore.PrintAll | src/context/receiptPrinter-context.tsx:354-386 | the receipts are printed as first attempts, one after the other |
| ReceiptPrinter.MatchingPrinter | src/context/receiptPrinter-context.tsx:51-57 | a poll is set up exactly when some printer has a receipt flag |
| ReceiptPrinter.ReceiptsOf | src/context/receiptPrinter-context.tsx:354-386 | each receipt sent carries its order's id and number |
| SalesReport.ZeroDaysContents | src/components/page/salesReport.tsx:87-96 | resetting the daily table adds every day of the range with zero sales and no orders, and keeps every other entry as it was |
| SalesReport.CategoriesAddUp | src/components/page/salesReport.tsx:143-164 | a category has an entry exactly when some product belongs to it; the entry names that category and holds the sum of its products' quantities and of their price times quantity; products without a category are skipped |
| SalesReport.ProductsAddUp | src/components/page/salesReport.tsx:166-184 | a product has an entry exactly when it was sold; the entry names that product and holds the sum of its quantities |
| SalesReport.AddCategoriesConcat | src/components/page/salesReport.tsx:143-164 | folding the category table over two runs of products in turn is the same as folding it over their concatenation |
| SalesReport.AddProductsConcat | src/components/page/salesReport.tsx:166-184 | folding the product table over two runs of products in turn is the same as folding it over their concatenation |
| SalesReport.SumQuantitiesConcat | src/components/page/salesReport.tsx:169 | the count of products sold is additive over concatenation |
| SalesReport.InitialHours | src/components/page/salesReport.tsx:50-75 | the hourly table has 24 entries, and hour h starts with zero amount and zero quantity |
| SalesReport.Process | src/components/page/salesReport.tsx:82-185 | the pass keeps the hourly table at 24 entries and the summary's day count unchanged |
| SalesReport.ProcessAsWritten | src/components/page/salesReport.tsx:82-185 | the pass as written, which resets the daily table inside the loop, also keeps 24 hourly entries and the day count |
| SalesReport.ProcessFailureSticks | src/components/page/salesReport.tsx:82-185 | once an order throws, the rest of the pass does not run, so the whole call throws |
| SalesReport.ReportTotals | src/components/page/salesReport.tsx:98-116 | new and cancelled orders are totalled and counted by status; the completed totals equal the new ones; the products sold are the sum of every product's quantity over all orders |
| SalesReport.AddOrderTotals | src/components/page/salesReport.tsx:98-116 | one order adds its total and a count to the figures of its status (new orders also to the completed figures) and its quantities to the products sold |
| SalesReport.ReportHours | src/components/page/salesReport.tsx:125-133 | hour h's entry counts and totals every order placed in hour h, whatever its status |
| SalesReport.BestHourIsBusiest | src/components/page/salesReport.tsx:135-141 | when no order total is negative, the best hour's amount is the amount of the hour it names and at least every hour's amount |
| SalesReport.AddOrderSameElsewhere | src/components/page/salesReport.tsx:98-183 | one iteration on two summaries that differ only in the daily table, and agree on whether the order's day is there: both throw or neither does, and the results again differ only in the daily table |
| SalesReport.AddOrderKeys | src/components/page/salesReport.tsx:98-124 | an iteration that does not throw keeps the days of the daily table |
| SalesReport.AsWrittenDiffersOnlyInDaily | src/components/page/salesReport.tsx:82-185 | the pass as written throws exactly when the corrected pass does, and otherwise every figure except the daily table is the same; its daily table holds only days of the range |
| SalesReport.AsWrittenThrowsIff | src/components/page/salesReport.tsx:82-185 | as written, the pass throws exactly when some new order falls on a day outside the range |
| SalesReport.DailyKeys | src/components/page/salesReport.tsx:87-96 | with the reset done once, the daily table holds exactly the days of the range |
| SalesReport.ProcessThrowsIff | src/components/page/salesReport.tsx:110-113 | the pass throws exactly when some new order falls on a day outside the range |
| SalesReport.DailySalesAddUp | src/components/page/salesReport.tsx:110-123 | with the reset done once, each day of the range lists the new orders placed on it, in order, with their count and the sum of their totals |
| SalesReport.DailySalesShowLastOrder | src/components/page/salesReport.tsx:82-123 | as written, every day of the range ends up empty, except the day of the last order when that order is new, which holds that order alone |
| SalesReport.SameDayOrdersCollapse | src/components/page/salesReport.tsx:87-123 | two new orders on the one day of a one-day range: as written the day reports one order sold, the corrected pass reports two |
| SalesReport.SameDayAsWritten | src/components/page/salesReport.tsx:86-123 | as written, two new orders on the one day of a one-day range do not throw, and the day reports one order sold, because the reset inside the loop keeps only the last |
| SalesReport.SameDayCorrected | src/components/page/salesReport.tsx:87-123 | with the reset done once, the same two orders do not throw, and the day reports both orders sold |
| SalesReport.ReportTables | src/components/page/salesReport.tsx:143-184 | the category and product tables are the folds over every product of every order, in order |
| SalesReport.ZeroDailySales | src/components/page/salesReport.tsx:87-96 | the reset loop yields the daily table with every day of the range zeroed and the other entries kept |
| SalesReport.AddCategorySales | src/components/page/salesReport.tsx:144-164 | the category loop of one order computes the category fold over its products |
| SalesReport.AddProductSales | src/components/page/salesReport.tsx:167-184 | the product loop of one order computes the product fold over its products and adds their quantities to the count of products sold |
| SalesReport.AddOrderSales | src/components/page/salesReport.tsx:98-184 | the loop body for one order yields the summary after that order, or throws when a new order's day has no entry |
| SalesReport.ProcessSalesData | src/components/page/salesReport.tsx:30-216 | without both dates or without orders, nothing is stored; otherwise the call stores the summary of the pass, or throws exactly when the pass throws; the daily reset runs once before the pass (see Findings) |
| BeginOrder.PadStart | src/components/page/beginOrder.tsx:46 | padding to width w keeps a string of at least w characters and otherwise yields exactly w characters |
| BeginOrder.MinutesPadded | src/components/page/beginOrder.tsx:46 | a minute count below 60, padded to two characters, is its two-digit zero-filled form |
| BeginOrder.ConvertTo12HourFormat | src/components/page/beginOrder.tsx:41-47 | the rendering ends in "pm" from noon on and in "am" before noon |
| BeginOrder.TwelveHourClock | src/components/page/beginOrder.tsx:41-47 | within a day, the rendering is the hour modulo 12 (12 for midnight and noon), a colon, two minute digits and the period |
| BeginOrder.Renders | src/components/page/beginOrder.tsx:41-47 | a time renders as its 12-hour clock text, a colon, its two minute digits and the period of its half of the day |
| BeginOrder.TwelveHourFormatInjective | src/components/page/beginOrder.tsx:41-47 | within a day, two times render the same exactly when they are the same minute |
| BeginOrder.SplitRendering | src/components/page/beginOrder.tsx:41-47 | two renderings "h:mm" followed by "am" or "pm", with two-character minutes and suffix, are equal only when hour, minutes and suffix are |
| BeginOrder.HourFromClock | src/components/page/beginOrder.tsx:41-47 | two hours of the day with the same AM/PM half and the same 12-hour clock value are the same hour |
| BeginOrder.MidnightReadsTwelve | src/components/page/beginOrder.tsx:45 | minute 0 renders as "12:00am" |
| BeginOrder.NoonReadsTwelve | src/components/page/beginOrder.tsx:45 | minute 720 renders as "12:00pm" |
| BeginOrder.QuarterToOneReadsTwelve | src/components/page/beginOrder.tsx:45 | minute 765 renders as "12:45pm" |
| BeginOrder.FivePm | src/components/page/beginOrder.tsx:65 | store 1's weekday opening time renders as "5:00pm" |
| BeginOrder.QuarterPastNinePm | src/components/page/beginOrder.tsx:67 | store 1's closing time renders as "9:15pm", the time its closed message spells out |
| BeginOrder.OpenExactlyInPublishedHours | src/components/page/beginOrder.tsx:28-39 | each store's check accepts exactly its published opening hours for the weekday, both ends included |
| BeginOrder.OnClickStore1 | src/components/page/beginOrder.tsx:50-81 | when store 1 is open, the kiosk lets go of store 2's register, selects store 1, connects store 1's register and opens its menu; otherwise it shows the closed message only |
| BeginOrder.OnClickStore2 | src/components/page/beginOrder.tsx:84-128 | when store 2 is open, the kiosk lets go of store 1's register, selects store 2, connects store 2's register and opens its menu; otherwise it shows the closed message only |
| BeginOrder.RegistersHandOver | src/components/page/beginOrder.tsx:70-80 | a store's click touches a register exactly when the store is open, and the other store's register is released before the chosen store's register is connected |
| BeginOrder.Store1MessageMatchesHours | src/components/page/beginOrder.tsx:60-79 | store 1's closed message names the opening time the check used for the day and its 9:15pm closing time |
| CustomerInformation.FoundField | src/components/page/customerInformation.tsx:82-87 | what a scan that runs to the end keeps: nothing exactly when no entry carries the label, otherwise an entry of the list with that label; holes and `undefined` slots carry no label |
| CustomerInformation.Scan | src/components/page/customerInformation.tsx:82-87 | the scan throws exactly when the list holds an `undefined` element; otherwise it ends with the entry the search specifies |
| CustomerInformation.ScanThrewExtends | src/components/page/customerInformation.tsx:83-87 | once the scan has thrown, later elements do not matter |
| CustomerInformation.FoundFieldIsLast | src/components/page/customerInformation.tsx:82-87 | the entry found is the last one carrying the label: no later entry has that label |
| CustomerInformation.LastWithLabelIsFound | src/components/page/customerInformation.tsx:82-87 | an entry with the label that no later entry overrides is the one found |
| CustomerInformation.MissingFields | src/components/page/customerInformation.tsx:79-99 | the custom-field check raises at most one complaint per requested field |
| CustomerInformation.MissingFieldsConcat | src/components/page/customerInformation.tsx:79-99 | the complaints about two runs of requested fields are the complaints about each run, in order |
| CustomerInformation.MissingFieldsExactly | src/components/page/customerInformation.tsx:79-99 | a label draws a complaint exactly when some requested field with that label is required and the entry found for it is missing or holds an empty value |
| CustomerInformation.RequiredInStep | src/components/page/customerInformation.tsx:79-99 | a label is required in a list exactly when it is required in the list without its last field or the last field is required and carries it |
| CustomerInformation.NothingMissingIff | src/components/page/customerInformation.tsx:79-99 | the custom-field check passes exactly when every required field is filled |
| CustomerInformation.CheckFlags | src/components/page/customerInformation.tsx:61-77 | each error flag is set afterwards exactly when it was set before or its field is requested and left empty (for the signature: the pad is empty) |
| CustomerInformation.RejectedIffSomethingReported | src/components/page/customerInformation.tsx:59-101 | the form is rejected exactly when one of the fixed checks raises a flag or the custom-field check complains |
| CustomerInformation.Spread | src/components/page/customerInformation.tsx:140 | the copy leaves no hole: a hole becomes `undefined` and an entry stays itself |
| CustomerInformation.SetEntry | src/components/page/customerInformation.tsx:139-148 | typing at an index keeps the list length or extends it to the index; the entry there holds the typed value, being the existing entry with its value replaced or a copy of the requested field; every other old index holds its copied slot, a former hole now `undefined`, and indices skipped over are new holes |
| CustomerInformation.EditLeavesUndefined | src/components/page/customerInformation.tsx:139-148 | a hole an edit does not overwrite becomes `undefined`, and from then on the scan of lines 81-87 throws whenever a custom field is required |
| CustomerInformation.SecondKeystrokeThrows | src/components/page/customerInformation.tsx:139-148 | an optional field then a required one, two keystrokes into the required one: the first leaves a hole at index 0, the second an `undefined`, and the scan of lines 81-87 then throws |
| CustomerInformation.SecondKeystrokeSkipped | src/components/page/customerInformation.tsx:79-99 | the check that skips missing slots accepts that same form |
| CustomerInformation.EditDecidesField | src/components/page/customerInformation.tsx:139-148 | after typing into the last entry with a label, that field passes the required check exactly when the typed value is not empty |
| CustomerInformation.CustomerInformationPage.constructor | src/components/page/customerInformation.tsx:26-34 | the form opens with the details already in the cart, if any, otherwise empty, and with no error flag set |
| CustomerInformation.CustomerInformationPage.FindField | src/components/page/customerInformation.tsx:82-87 | the loop over the entries throws at an `undefined` element and otherwise returns the entry the search specifies |
| CustomerInformation.CustomerInformationPage.CheckCustomFields | src/components/page/customerInformation.tsx:79-99 | the loop over the requested fields throws exactly when a field is required and the list holds an `undefined` element; otherwise it collects exactly the complaints the check specifies |
| CustomerInformation.CustomerInformationPage.OnNext | src/components/page/customerInformation.tsx:56-122 | without a request nothing happens; otherwise the flags are updated by the fixed checks; the call throws, saving nothing, when a custom field is required and the list holds an `undefined` element; otherwise a rejected form yields the custom-field complaints; an accepted form stores the details (with the signature image only when a signature is requested) and goes to "/checkout/true"; the typed fields are unchanged |
| CustomerInformation.CustomerInformationPage.RaiseFlags | src/components/page/customerInformation.tsx:60-76 | the fixed-field and signature checks raise exactly the flags of the failing checks and report whether any failed |
| CustomerInformation.CustomerInformationPage.OnChangeFirstName | src/components/page/customerInformation.tsx:124-127 | the first name becomes the typed value and its error flag clears; nothing else changes |
| CustomerInformation.CustomerInformationPage.OnChangeEmail | src/components/page/customerInformation.tsx:129-132 | the email becomes the typed value and its error flag clears; nothing else changes |
| CustomerInformation.CustomerInformationPage.OnChangePhoneNumber | src/components/page/customerInformation.tsx:134-137 | the phone number becomes the typed value and its error flag clears; nothing else changes |
| CustomerInformation.CustomerInformationPage.OnChangeCustomField | src/components/page/customerInformation.tsx:139-148 | the entries become the copied and edited list that typing specifies, with every former hole `undefined`; the flags and the fixed fields are unchanged |

## Left out

- Floating point: the dollar strings the payment modal and the cart parse and format, with their rounding, are outside the model. Amounts are integer cents, and only discounts are `real`.
- Dates and the clock: `new Date()`, the `date-fns` helpers and timezone offsets are parameters. The weekday and the moment of the day are passed to the schedule and the store checks; each order carries its day and hour for the sales report; `dayAt(i)` stands for the i-th formatted day of the report range; `toLocalISOString` receives the broken-down local time.
- Timers: `setTimeout` and `setInterval` are explicit steps. The countdown is one `Tick` per second, and the retry and polling intervals are one method call per firing.
- Storage and transport: local storage, the Electron bridge, HTTP to the label server, the GraphQL queries and mutations, the error-logging service and toasts are outside the model. Their answers are inputs, and what is sent to them is part of the result or the new state.
- Vendor terminal SDKs (Smartpay, Windcave, Verifone): each flow takes the terminal's answer, or the error it throws, as a parameter.
- Label payload text: JSON escaping of names and the fixed font flags of each drawing command are not modelled. A command is its kind, text and position.
- `filterPrintProducts`: the receipt-content filter is an input to the new-order printing pass (whether the order has products for the printer).
- The signature pad: `isEmpty()` is the `canvasEmpty` parameter, and the trimmed, resized image is the `signatureImage` parameter of `OnNext`. Restoring a saved signature onto the pad and the page's `onClose` navigation are not modelled.
- CustomerInformation.FoundField: states only the result of a scan that runs to the end, so it skips holes and `undefined` slots alike. The TypeError that the source raises on an `undefined` element is modelled by CustomerInformation.Scan, and FindField and OnNext are proved against Scan.
- CustomerInformation.CustomerInformationPage.OnChangeCustomField: the source writes the new value into the existing entry object, which the cart's saved details may share. The model replaces the entry in a list value, so that aliasing is not captured.
- Cart.CartStore.UpdateItem, Cart.CartStore.UpdateItemQuantity, Cart.CartStore.DeleteItem: these require the index to lie inside the line list when there is one. Out of range, JavaScript would grow a sparse array, throw on a missing line, or splice from the end; none of that is modelled.
- PaymentModal.PaymentModalView.RemoveTransaction: requires the index to name a recorded payment. The source reads `payments[index].amount` first, which throws for any other index.
- Schedule.IsAvailable: requires every slot of today to start no later than it ends, because `isWithinInterval` throws otherwise.
- Cart.CartStore.FilterAvailablePromotions: requires the same of every promotion whose slots it reaches, and that its start date is no later than its end date, since `isWithinInterval` throws on a reversed interval. Cart.SelectPromotionsOnOffer, the loop it runs, requires the same.
- SalesReport.BestHourIsBusiest: stated only for orders with non-negative totals. With a negative total, the running best hour can be above every final hourly amount.
- SalesReport.Process, SalesReport.ProcessSalesData: the daily table is reset once before the pass, not once per order (see Findings). The as-written pass is SalesReport.ProcessAsWritten. SalesReport.AsWrittenDiffersOnlyInDaily proves that the two passes throw together and agree on every figure except the daily table, so the totals, hours and tables proved of the corrected pass hold as written.
- ReceiptPrinter.QueueAfterPrint, ReceiptPrinter.PrintQueueStore.StoreFailedPrint, ReceiptPrinter.PrintQueueStore.RemoveSuccessPrint: the source stores and filters by the order in the bridge's answer. The model uses the order that was sent, so it assumes the bridge echoes back the order it received.
- Equal-price candidates: the promotion matcher's sort comparator never returns 0, so the order of equal-priced candidates is left open. The model sorts stably, and only sortedness by price and being a permutation of the candidates are stated.
- React rendering and routing are not modelled, apart from the paths the pages navigate to.
- `printSalesData` and the analytics pages are outside the core; their data come from the sales report modelled here.

## Findings

| source | as written | input that shows it | evidently intended | confidence | as-written member | corrected member |
|---|---|---|---|---|---|---|
| src/util/util.tsx:226-229, 243-244 | `toLocalISOString` pads the milliseconds with the same two-digit `pad` as the other fields | 10:00:00.050 renders ending in ".50" and 10:00:00.123 ending in ".123", so the later time sorts first as a string | three-digit milliseconds, as in ISO 8601, so that string order is time order | high, not executed | LocalTime.MillisecondsOrderInverted | LocalTime.FixedOrderIsTimeOrder |
| src/context/receiptPrinter-context.tsx:252-279 | `printLabel` joins the modifier lines with a comma only for groups after the first, and joins the sections with fixed commas | a product with no modifier groups gives two adjacent commas; a first group with three modifiers gives two members with no comma between them | exactly one comma between consecutive members, so the payload is valid JSON | high, not executed | ReceiptPrinter.LabelPayloadAsWrittenMalformed | ReceiptPrinter.LabelPayload |
| src/components/page/customerInformation.tsx:81-87, 140 | `onChangeCustomField` copies the entries with `[...customFields]`, which turns each hole into an `undefined` element, and the scan reads `customField.label` of every element | an optional field then a required one, with two characters typed into the required one: the list becomes `[undefined, {Table: "12"}]` and "Complete Order" throws a TypeError, so nothing is saved | the scan skips slots with no entry, so the form is accepted | high, not executed | CustomerInformation.SecondKeystrokeThrows | CustomerInformation.SecondKeystrokeSkipped |
| src/components/page/salesReport.tsx:86-96 | the loop that zeroes every day of the range runs inside the loop over the orders | two new orders on the one day of a one-day range: the day reports one order sold | the daily table is zeroed once, before the orders are added up | high, not executed | SalesReport.SameDayOrdersCollapse | SalesReport.DailySalesAddUp |

The label printing members (ReceiptPrinter.LabelJobs, ReceiptPrinter.PrintLabel and the loops under it) send the payload exactly as `printLabel` assembles it. ReceiptPrinter.LabelsAreNumbered states which labels are then malformed, and ReceiptPrinter.AsWrittenIsCorrectedWhenValid shows that every other label is exactly the corrected ReceiptPrinter.LabelPayload.
