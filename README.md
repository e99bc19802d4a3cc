# Hotel market analysis engine — a verified model

This project models the server-side core of a hotel-market monitoring system. The system keeps one accommodation document per listing scraped from booking platforms. In the original, each document is stored in MongoDB and holds a price history. From these documents the system derives city-level market figures:

- a demand score with a level and a trend;
- price, occupancy and rating statistics;
- top-5 rankings;
- alerts and recommendations.

The HTTP routes that serve the figures, and the reports built from them, are modelled as well.

The model is written in Dafny and verified by it. It covers:

- **Price history** (`price_history.dfy`, `accommodation.dfy`):
  - the windowed percentage trend `getPriceTrend`;
  - the `averagePrice` virtual;
  - `addPriceToHistory`, which appends one sample and keeps one year of history. It is a method of the `Accommodation` class, because the document is updated in place.
- **Ingestion** (`scraper.dfy`):
  - the scrape loop that creates or refreshes documents, keyed by external id and platform. It is a `Store` class whose methods follow a value-level description (`Upsert`, `UpsertAll`).
- **City analysis** (`demand.dfy`, `market_stats.dfy`, `grouping.dfy`, `market_analysis.dfy`):
  - `analyzeCityDemand`;
  - `generateMarketAnalysis`, with one method per part of the analysis. Where the original accumulates in a `forEach`, the model uses a loop.
- **Routes**:
  - `/trends`, `/comparison` and `/occupancy` of the analysis router (`analysis_routes.dfy`);
  - query construction, pagination, city statistics and price-history statistics of the accommodations router (`accommodation_routes.dfy`);
  - the summary, PDF and Excel figures of the reports router (`reports.dfy`).

  The per-type totals that two of these routes share are in `type_totals.dfy`.
- **Schema enumerations** (`schema.dfy`) and the **relative-date labels** of the front end (`date_utils.dfy`).

General representation:

- Prices, scores and rates are exact `real`s.
- Timestamps are integer milliseconds. `DAY` is 86 400 000 ms and `YEAR` is 365 days.
- The clock reading `new Date()` is a parameter `now`.
- A database read becomes the sequence of listings it would return.
- A case-insensitive regular-expression match is an abstract predicate parameter.

Where the code divides by a quantity that can be zero (a JavaScript NaN or Infinity), the model requires the quantity to be non-zero. The one exception is a trend that is only compared with a threshold. There the model follows the JavaScript comparison: Infinity exceeds every threshold, and NaN and −Infinity exceed none (`Demand.TrendAbove`).

Behaviour of the code that is easy to misread:

- The demand level is taken from the **unrounded** score, so 74.5 is 'alta' although it is reported as 75 (`Demand.LevelIgnoresRounding`).
- The analysis median is `sorted[floor(n/2)]`, the upper middle for an even count. The comparison route's median averages the two middle values (`AnalysisRoutes.MediansDifferOnEvenCount`).
- `getPriceTrend` has no guard against an oldest in-window price of 0. When that price is 0, the 7-day surge count and the 30-day price-increase rate count a listing whose newest price is positive as rising (`Demand.RiseFromZeroCounts`). Where the trend's value is reported, the model requires the oldest price to be non-zero (`PriceHistory.TrendDefined`).
- `generateMarketAnalysis` throws for a city without listings, and the model returns `Failure(NoAccommodations)`. `analyzeCityDemand` answers 'baixa' with score 0 instead.
- Every sort is stable and has no tie-breaker. Listings with equal scores or equal prices keep the order the query returned them in, not id order. This decides which of them make a top-5 list (`MarketStats.TopRatedTies`, `MarketStats.PriceLeadersTies`).
- No listing is skipped for a malformed rating or price. A missing score, or a score of 0, counts as unrated, which is how optional chaining reads it.

## Model

| member | source | states |
|---|---|---|
| Schema.ParseType | server/models/Accommodation.js:10-14 | exactly the seven schema type strings are accepted, and a parsed type's name is the input |
| Schema.ParseTypeName | server/models/Accommodation.js:10-14 | every type's name parses back to that type |
| Schema.ParseLevel | server/models/MarketAnalysis.js:24-27 | exactly 'baixa', 'média', 'alta', 'muito alta' are demand levels |
| Schema.ParseLevelName | server/models/MarketAnalysis.js:24-27 | every level's name parses back to it |
| Schema.ParseTrend | server/models/MarketAnalysis.js:33-36 | exactly 'crescente', 'estável', 'decrescente' are trends |
| Schema.ParseTrendName | server/models/MarketAnalysis.js:33-36 | every trend's name parses back to it |
| Schema.ParseAlertType | server/models/MarketAnalysis.js:111-114 | exactly the four alert type strings are accepted |
| Schema.ParseAlertTypeName | server/models/MarketAnalysis.js:111-114 | every alert type's name parses back to it |
| Schema.ParseTier | server/models/MarketAnalysis.js:115-118 | exactly 'low', 'medium', 'high' are severities and priorities |
| Schema.ParseTierName | server/models/MarketAnalysis.js:132-135 | every tier's name parses back to it |
| Listings.Prices | server/services/analysisService.js:113 | one price per listing, the i-th the i-th listing's current price |
| Listings.RatedScores | server/services/analysisService.js:162 | as many scores as listings with a truthy score (0 counts as unrated) |
| Listings.AvailableCount | server/services/analysisService.js:142 | the available count never exceeds the listing count |
| Sorting.SortBy | server/services/analysisService.js:114 | the sort is a permutation of its input, of the same length, in ascending key order |
| Sorting.SortByStable | server/services/analysisService.js:114 | stability: the elements that share a key leave the sort in the order they entered it |
| Sorting.InsertKeepsTies | server/services/analysisService.js:114 | an inserted element goes before every element with its key, and those keep their order |
| Sorting.SortedPrefixKeepsTieOrder | server/services/analysisService.js:197-214 | among the elements that share a key, the first k of the sort keep those that come first in the input, in input order |
| Sorting.SortedPrefixDominates | server/services/analysisService.js:197-214 | the first k of a sorted sequence are sorted, come from the input, and no element left out ranks before one kept |
| PriceHistory.Window | server/models/Accommodation.js:161-162 | the window holds exactly the samples dated on or after the cutoff |
| PriceHistory.WindowConcat | server/models/Accommodation.js:161-162 | filtering a concatenation filters each part |
| PriceHistory.WindowPermutation | server/models/Accommodation.js:161-162 | permuted histories have permuted windows |
| PriceHistory.RecentInWindow | server/models/Accommodation.js:158-163 | the recent samples are the whole window, each dated ≥ cutoff and from the history, in non-decreasing date order |
| PriceHistory.TrendSparse | server/models/Accommodation.js:155-165 | fewer than two samples in the history or in the window give trend 0 |
| PriceHistory.TrendSign | server/models/Accommodation.js:167-170 | with a positive oldest price the trend is positive / zero / negative iff the newest price is above / equal to / below the oldest |
| PriceHistory.SignOfQuotient | server/models/Accommodation.js:170 | dividing by a positive price and scaling by 100 keeps the sign |
| PriceHistory.TrendFromWindow | server/models/Accommodation.js:155-170 | the trend depends only on the history's length and its window |
| PriceHistory.TrendIgnoresOldSample | server/models/Accommodation.js:158-165 | inserting a sample dated before the cutoff anywhere never changes the trend |
| PriceHistory.TrendOrderIndependent | server/models/Accommodation.js:161-170 | when no two different samples share a date, reordering the history leaves the trend unchanged |
| PriceHistory.TrendFromEnds | server/models/Accommodation.js:165-170 | histories of one length whose sorted windows share both ends have one trend |
| PriceHistory.SameEnds | server/models/Accommodation.js:163 | sorting permuted windows gives the same oldest and newest sample |
| PriceHistory.SameExtreme | server/models/Accommodation.js:163 | the oldest (newest) sample of permuted windows is one and the same |
| PriceHistory.TrendDependsOnOrderOfTies | server/models/Accommodation.js:163-170 | two samples on the same date in swapped order give different trends (the sort is stable) |
| PriceHistory.TiesKeepHistoryOrder | server/models/Accommodation.js:159-163 | for any history, the in-window samples that share a date appear in `recentPrices` in history order |
| PriceHistory.TieOrderKept | server/models/Accommodation.js:163 | the instance `TrendDependsOnOrderOfTies` uses: two samples both dated 0 keep their order |
| PriceHistory.SamplePrices | server/models/Accommodation.js:133 | one price per sample, in order |
| PriceHistory.AveragePriceBounds | server/models/Accommodation.js:131-135 | `averagePrice` is `currentPrice` for an empty history, else between the least and greatest sample price |
| PriceHistory.AppendAndPruneSpec | server/models/Accommodation.js:138-149 | after an append nothing older than a year survives, nothing within the year is lost, and the result is the old window plus the new sample |
| PriceHistory.AppendAndPruneShape | server/models/Accommodation.js:139-149 | the pruned history is the old in-year samples in order followed by the new sample |
| PriceHistory.AppendAndPruneRetains | server/models/Accommodation.js:146-149 | every sample within the year is retained |
| AccommodationModel.Created | server/scrapers/index.js:46-49 | a created document copies the scraped item and has no history |
| AccommodationModel.Refreshed | server/scrapers/index.js:28-43 | price, availability and rating replaced, `lastScrapedAt` = now, identity kept, history unchanged when the price is unchanged |
| AccommodationModel.RefreshedRecordsNewPrice | server/scrapers/index.js:37-43 | after a price change the history's last sample carries the new current price, dated now |
| AccommodationModel.Accommodation.constructor | server/scrapers/index.js:48 | the new document is the created value |
| AccommodationModel.Accommodation.AddPriceToHistory | server/models/Accommodation.js:138-149 | the new history is the old in-year window followed by the new sample (defaults `available = true`, `occupancyRate = null`); all retained samples are within the year |
| AccommodationModel.Accommodation.Refresh | server/scrapers/index.js:28-45 | the document becomes its refreshed value |
| Scraper.Find | server/scrapers/index.js:23-26 | the first document with the key, or none iff no document carries it |
| Scraper.UpsertEffect | server/scrapers/index.js:28-50 | a found document is refreshed at its position and nothing else changes; otherwise exactly the created document is appended |
| Scraper.UpsertKeys | server/scrapers/index.js:21-50 | an upsert keeps keys distinct (no duplicate) and adds the item's key |
| Scraper.UpsertAllKeys | server/scrapers/index.js:21-51 | after a run the keys are the old keys plus the scraped ones, each once |
| Scraper.DistinctKeysCount | server/scrapers/index.js:21-51 | a table with distinct keys has as many documents as keys |
| Scraper.UpsertAllCount | server/scrapers/index.js:21-51 | a run grows the collection by exactly the number of scraped keys not present before |
| Scraper.UpsertAllOtherPlatform | server/scrapers/index.js:24-25 | documents of another platform are never touched and no document moves |
| Scraper.UpsertRecordsItem | server/scrapers/index.js:30-43 | a found document carries the scraped price, availability and rating afterwards |
| Scraper.Store.Ingest | server/scrapers/index.js:21-50 | one iteration changes the table exactly as `Upsert` describes and keeps documents unique |
| Scraper.Store.Scrape | server/scrapers/index.js:21-51 | the loop changes the table exactly as `UpsertAll` describes |
| Scraper.Store.ScrapeBooking | server/scrapers/index.js:8-58 | the Booking run is the loop keyed on platform 'booking' |
| Scraper.Store.ScrapeExpedia | server/scrapers/index.js:63-96 | the Expedia run is the same loop keyed on 'expedia' |
| Grouping.Kinds | server/services/analysisService.js:125-131 | the dictionary keys are distinct and include every listing's type |
| Grouping.OfKindMembers | server/services/analysisService.js:152 | a type's group holds exactly the listings of that type |
| Grouping.KindsNonEmpty | server/services/analysisService.js:125-131 | a type is a key iff its group is non-empty |
| Grouping.CountsPartition | server/services/analysisService.js:133-139 | the group sizes add up to the listing count |
| Grouping.GroupByKind | server/services/analysisService.js:125-131 | the `forEach` yields one group per type present, in first-occurrence order, each the listings of that type in order |
| Demand.OccupancyRate | server/services/analysisService.js:27-28 | the occupied share lies in [0, 100] |
| Demand.PriceIncreaseRate | server/services/analysisService.js:34-38 | the share of listings with a 30-day trend above 10% lies in [0, 100] |
| Demand.RiseFromZeroCounts | server/models/Accommodation.js:165-168 | a window that rises from price 0 to a positive price has no finite trend but counts as rising above every threshold (Infinity) |
| Demand.FlatAtZeroNotRising | server/models/Accommodation.js:165-168 | a window that starts and ends at price 0 (a NaN trend) never counts as rising |
| Demand.HighRatingRate | server/services/analysisService.js:46-47 | the share scored ≥ 8 with ≥ 50 reviews lies in [0, 100] |
| Demand.ActivityRate | server/services/analysisService.js:55-58 | the share scraped in the last day lies in [0, 100] |
| Demand.OccupancyPoints | server/services/analysisService.js:29 | at most 30, non-negative, and proportional up to a 100% rate |
| Demand.PricePoints | server/services/analysisService.js:39 | at most 30, non-negative, and full once half the listings rose |
| Demand.RatingPoints | server/services/analysisService.js:48 | at most 20, non-negative, and full once half are well rated |
| Demand.ActivityPoints | server/services/analysisService.js:59 | at most 20, non-negative, and proportional up to a 100% rate |
| Demand.RawScoreBounds | server/services/analysisService.js:23-79 | the summed score lies in [0, 100] and its rounding is a valid schema score |
| Demand.LevelOf | server/services/analysisService.js:63-67 | 'muito alta' iff ≥ 75, 'alta' iff in [50, 75), 'média' iff in [25, 50), 'baixa' iff < 25 |
| Demand.LevelMonotone | server/services/analysisService.js:63-67 | a higher score never gives a lower level |
| Demand.LevelIgnoresRounding | server/services/analysisService.js:64-79 | a score of 74.5 is reported as 75 but classified 'alta' |
| Demand.TrendOf | server/services/analysisService.js:70-73 | 'crescente' iff price and occupancy points both exceed 15, 'decrescente' iff price < 5 and occupancy < 15, else 'estável' |
| Demand.FactorsListed | server/services/analysisService.js:31-52 | the occupancy factor always comes first; the price and rating factors appear iff their rates exceed 20 and 30 |
| Demand.AnalyzeCityDemand | server/services/analysisService.js:14-88 | no listings gives 'baixa' with score 0; otherwise the level, rounded score, trend, factors and metrics are those of the four components; the score is always in [0, 100] |
| MarketStats.SortedPrices | server/services/analysisService.js:114 | one sorted price per listing |
| MarketStats.MedianPriceBounds | server/services/analysisService.js:117 | the median is one of the prices, between min and max, with no larger price before position n/2 and no smaller one after it |
| MarketStats.AveragePriceOfBounds | server/services/analysisService.js:116-119 | min ≤ average ≤ max |
| MarketStats.PriceVariationMeaning | server/services/analysisService.js:120 | with positive prices the variation is ≥ 0, and exceeds 100 iff the greatest price is above twice the least |
| MarketStats.Rated | server/services/analysisService.js:162 | the rated listings are exactly those with a truthy score |
| MarketStats.BandsPartition | server/services/analysisService.js:168-189 | the four band counts add up to the rated count |
| MarketStats.BandPercentagesSum | server/services/analysisService.js:192-194 | with a rated listing the band percentages add up to 100 |
| MarketStats.AverageRatingBounds | server/services/analysisService.js:164-166 | the average rating is 0 with no rated listing, else between the rated scores' min and max |
| MarketStats.TotalReviews | server/services/analysisService.js:167 | the review total counts a missing value as 0 and is at least each listing's count |
| MarketStats.TopRatedSpec | server/services/analysisService.js:197-200 | exactly min(#qualifying, 5) entries, each from the city with a score and ≥ 20 reviews, non-increasing scores, and no excluded qualifying listing outscores an included one |
| MarketStats.TopRatedTies | server/services/analysisService.js:197-200 | of the qualifying listings with equal scores, those in `topPerformers` are the first the query returned, in that order |
| MarketStats.PriceLeadersTies | server/services/analysisService.js:207-209 | of the listings with equal prices, the price leaders are the first the query returned, in that order |
| MarketStats.PriceLeadersSpec | server/services/analysisService.js:207-209 | min(n, 5) entries from the city, non-increasing prices, none left out costs more than one listed |
| MarketStats.ScoreEntries | server/services/analysisService.js:201-205 | one entry per ranked listing with its id, name and score |
| MarketStats.PriceEntries | server/services/analysisService.js:210-214 | one entry per ranked listing with its id, name and price |
| Market.PriceByType | server/services/analysisService.js:124-139 | one entry per type present, in first-occurrence order, with its count and mean price; the counts add up to n |
| Market.OccupancyByType | server/services/analysisService.js:151-159 | one entry per type with its count and occupied share (count − available)/count·100; the counts add up to n |
| Market.AssignPercentages | server/services/analysisService.js:192-194 | each band's percentage becomes count/rated·100, the rest unchanged |
| Market.AnalyzeRatings | server/services/analysisService.js:161-194 | average rating, review total, the four bands in range order with their counts, percentages adding up to 100 |
| Market.SurgeThreshold | server/services/analysisService.js:225 | more than 0.3·n means more than 3 in 10 |
| Market.LowAvailabilityThreshold | server/services/analysisService.js:235 | an occupancy above 80% means more than 4 in 5 listings occupied |
| Market.Alerts | server/services/analysisService.js:216-242 | a 'price_surge' alert iff more than 0.3·n 7-day trends exceed 20%, then a 'low_availability' alert iff occupancy > 80 |
| Market.AlertsListed | server/services/analysisService.js:219-242 | each alert fires iff its threshold is crossed, with severity 'high'; low availability reports n − available |
| Market.RecommendationsFor | server/services/analysisService.js:244-263 | the high-priority recommendation iff the level is 'alta' or 'muito alta', the medium one iff variation > 100, each at most once and in that order |
| Market.Recommendations | server/services/analysisService.js:244-263 | the pushes build exactly the sequence `RecommendationsFor` describes |
| Market.AnalyzePrices | server/services/analysisService.js:112-139 | mean, upper-middle median, extremes with min ≤ mean, median ≤ max, variation and per-type entries |
| Market.AnalyzeOccupancy | server/services/analysisService.js:141-159 | overall rate (as average and rate) in [0, 100], counts, and per-type entries whose counts add up to n |
| Market.GenerateMarketAnalysis | server/services/analysisService.js:98-287 | fails iff there is no listing; otherwise the state of the first listing, the demand level, score, trend and factors of the four components, the price, occupancy and rating objects (every field, per-type entries and bands included), both rankings, the alerts and the recommendation sequence |
| AnalysisRoutes.Points | server/routes/analysis.js:45-48 | one date–price point per sample, in order |
| AnalysisRoutes.TrendHistoryInWindow | server/routes/analysis.js:34-49 | each returned history holds the whole window, every point dated ≥ cutoff, in ascending date |
| AnalysisRoutes.TrendsOf | server/routes/analysis.js:34-50 | one trend entry per listing, in order |
| AnalysisRoutes.TrendValues | server/routes/analysis.js:53 | one trend value per entry |
| AnalysisRoutes.OverallTrendBounds | server/routes/analysis.js:53 | the overall trend lies between the least and greatest listing trend |
| AnalysisRoutes.Summarize | server/routes/analysis.js:64-68 | increasing (> 5), stable (−5..5) and decreasing (< −5) counts partition the listings |
| AnalysisRoutes.MarketTrends | server/routes/analysis.js:20-69 | period ends now and starts at the cutoff, one entry per listing, buckets adding up to n, overall trend within the listing trends |
| AnalysisRoutes.MiddleOfBetween | server/routes/analysis.js:115-118 | on an ascending sequence the middle value lies between the two middle elements |
| AnalysisRoutes.InterpolatedMedianBounds | server/routes/analysis.js:113-118 | the comparison median is the middle element for odd counts, the mean of the two middle elements for even, and between min and max |
| AnalysisRoutes.MediansDifferOnEvenCount | server/routes/analysis.js:116-117 | on [100, 200] the comparison median is 150 where the analysis median is 200 |
| AnalysisRoutes.CompareGroupBounds | server/routes/analysis.js:107-129 | within a type, min ≤ median ≤ max and min ≤ mean ≤ max, and the average rating is over truthy scores only, 0 when none |
| AnalysisRoutes.ComparePrices | server/routes/analysis.js:85-135 | one entry per type present with its count and statistics; counts add up to `totalAccommodations` |
| AnalysisRoutes.CountOfSnoc | server/routes/analysis.js:210-218 | one more listing bumps only its own type's counters |
| AnalysisRoutes.Tally | server/routes/analysis.js:210-218 | the callback keeps every counter equal to the counts over the listings seen |
| AnalysisRoutes.CountByKind | server/routes/analysis.js:209-218 | one counter per type present, each holding its total and available count |
| AnalysisRoutes.WithRate | server/routes/analysis.js:220-223 | a type's occupancy rate lies in [0, 100] and keeps its counts |
| AnalysisRoutes.OccupancyByCity | server/routes/analysis.js:205-233 | occupied = total − available, rate = (total − available)/total·100, per-type available ≤ total, per-type totals add up to n |
| TypeTotals.TotalOfSnoc | server/routes/accommodations.js:104-110 | one more listing adds to its own type's counter only |
| TypeTotals.Accumulate | server/routes/accommodations.js:104-110 | the callback keeps every counter equal to count and total price over the listings seen |
| TypeTotals.TotalByKind | server/routes/reports.js:264-270 | one counter per type present, with its count and total price |
| TypeTotals.AveragePriceByType | server/routes/reports.js:263-275 | one entry per type present, count > 0 and `avgPrice` = totalPrice/count (the mean), counts adding up to n, no `totalPrice` left |
| AccommodationRoutes.BuildQuery | server/routes/accommodations.js:23-34 | the query always requires `isActive`; it selects exactly the active listings passing each supplied filter, price bounds only for supplied bounds, availability only for 'true' |
| AccommodationRoutes.SortFor | server/routes/accommodations.js:19-37 | the direction is −1 iff `sortOrder` (default 'desc') is 'desc', else 1; the field defaults to 'rating.score' |
| AccommodationRoutes.PaginationFor | server/routes/accommodations.js:50-55 | pages = ceil(total/limit) for any non-zero limit: 0 for no match; for a positive limit the least count of pages holding all matches; for a negative limit a count of 0 or below |
| AccommodationRoutes.PageOf | server/routes/accommodations.js:36-44 | a page holds at most `limit` matches, starting at skip = (page − 1)·limit |
| AccommodationRoutes.EveryRowOnItsPage | server/routes/accommodations.js:36-54 | every match lies on page i/limit + 1, which is within the announced page count |
| AccommodationRoutes.CityStatistics | server/routes/accommodations.js:88-119 | zeros and no `byType` for no listing; otherwise mean price within min and max, mean truthy score, per-type counts adding up to total with `avgPrice` the mean, `availabilityRate` = available/total·100 in [0, 100] |
| AccommodationRoutes.StatsOf | server/routes/accommodations.js:158-162 | for a non-empty window min and max are window prices bounding every price, the average is their mean and lies between them; no statistics for an empty one |
| AccommodationRoutes.HistoryOf | server/routes/accommodations.js:142-162 | the window sorted ascending, each sample dated ≥ cutoff and from the history, none in-window missing, the trend over the same days, the document's id, name and current price, and the statistics of exactly the returned window's prices |
| AccommodationRoutes.PriceHistoryRoute | server/routes/accommodations.js:131-140 | 404 iff no document; otherwise the answer for the document found |
| Reports.ScaledSumIsQuotient | server/routes/reports.js:251 | adding score/k over the k scores is their sum divided by k |
| Reports.RatingAverageIsMean | server/routes/reports.js:251 | the scaled reduce is the mean truthy score, 0 when none |
| Reports.AvailableOccupiedPartition | server/routes/reports.js:255-256 | available + occupied = total |
| Reports.ReportSummary | server/routes/reports.js:236-277 | 404 iff no listing; otherwise min ≤ average ≤ max, the mean truthy score, the review total, available + occupied = total with rate available/total·100, per-type counts adding up to total |
| Reports.PdfRowOf | server/routes/reports.js:66-72 | a row shows the score iff it is truthy |
| Reports.PdfRows | server/routes/reports.js:66 | the first min(n, 50) listings, in input order |
| Reports.PdfFigures | server/routes/reports.js:29-72 | 404 iff no listing; otherwise total, mean price, mean truthy score and exactly the rows of the first min(n, 50) listings, in input order |
| Reports.ExcelRowOf | server/routes/reports.js:155-167 | a row shows the score iff it is truthy (and then that score), a missing review count as 0, and the last scrape time |
| Reports.ExcelFigures | server/routes/reports.js:147-187 | 404 iff no listing; otherwise one row per listing in order plus total, mean price, mean truthy score and available count |
| DateUtils.Relative | src/utils/dateUtils.js:18-25 | 0 → 'Hoje', 1 → 'Ontem', other days < 7 (negatives too) → days ago, weeks 1..4, months 1..12, years ≥ 1, each iff its range |
| DateUtils.FormatRelativeDate | src/utils/dateUtils.js:15-26 | '' iff the date is falsy, otherwise the label of the day difference |
| DateUtils.GetDaysUntil | src/utils/dateUtils.js:28-32 | 0 for a falsy date, otherwise the days from today to the date |
| DateUtils.FutureDateReadsNegated | src/utils/dateUtils.js:15-32 | a future date has positive days-until and reads as that many days ago with a minus sign |
| DateUtils.MagnitudeWithinUnit | src/utils/dateUtils.js:22-25 | a label never overstates the elapsed days and understates them by less than its unit |

## Left out

- Database access (`find`, `findOne`, `findById`, `countDocuments`, `save`, `distinct`, `populate`): a read becomes its result sequence or `Option`, and a write becomes the new value or state.
- The MongoDB sort by an arbitrary `sortBy` field in `GET /`: the model gives the sort specification and pages through matches taken as already sorted.
- The `PUT`, `DELETE`, `POST`, `/:id`, `/meta/cities` and `/meta/types` routes: each is a single database call.
- The stored-analysis routes of `server/routes/analysis.js` (`/market`, `/market/:city/history`): these are reads of saved snapshots. `/demand/:city` is `AnalyzeCityDemand`.
- `runDailyAnalysis`, the Express bootstrap, cron schedules and the `global.mongoConnected` mock-data branch of the report routes.
- Random fixture generation (`generateSampleData`, mock data, seeding): the scrape takes the generated items as input.
- Rendering the PDF and the workbook (jsPDF and xlsx layout, the analysis sheet and section read from a stored snapshot).
- The Excel columns `Bairro` and `Taxa Ocupação`, which read fields the model's listing does not carry.
- String formatting: `toFixed`, `parseFloat(x.toFixed(1))`, `toLocaleDateString`, the message texts of factors, alerts and recommendations, and the label text of `formatRelativeDate` (the label carries its number).
- `formatDate` and `formatDateTime`, which are date-fns formatting only.
- DateUtils.FormatRelativeDate, DateUtils.GetDaysUntil: a truthy date string that `parseISO` cannot parse is not modelled. It makes `differenceInDays` NaN, which fails every comparison of the if-chain, so the label is 'NaN anos atrás' and `getDaysUntil` answers NaN.
- DateUtils.FormatRelativeDate, DateUtils.GetDaysUntil: dates are whole day numbers, so the time of day is dropped, and with it the way `differenceInDays` rounds part-days down (30 hours is 1 day). The model's day difference is the difference of the day numbers.
- IEEE floating point: prices and rates are exact reals, and every JavaScript division by zero is a precondition:
  - the trend with an oldest price of 0, where its value is reported (`/trends`, `/:id/price-history`); where it is only compared with a threshold, Infinity and NaN are modelled;
  - variation with a least price of 0;
  - band percentages with no rated listing;
  - occupancy and overall trend with no listing.
- AccommodationRoutes.PageOf: requires `page ≥ 1` and a positive `limit`. The database decides the other cases. A page of 0 or less gives a negative skip, which the database rejects, so the route answers 500. A limit of 0 or below means "no limit" or "one batch" to the database.
- Query-string values that are not integers (`Number('abc')` is NaN) are not modelled: `page` and `limit` of `GET /` and `days` of `/trends` and `/:id/price-history` are integers.
- Calendar arithmetic (`setDate`, `setFullYear`, DST, leap years): fixed day and year lengths.
- `new RegExp(city, 'i')`: an abstract predicate parameter.
- `Market.GenerateMarketAnalysis`: takes the demand result of the same listing sequence, where the original queries the database again in `analyzeCityDemand`.
- The `seasonality` and `period` fields of the analysis schema, the alerts' `createdAt` default (a clock reading taken on save) and `server/models/PriceAlert.js`: no modelled code computes them.
- Concurrency: `Promise.all` and the awaited saves run in sequence in the model.
