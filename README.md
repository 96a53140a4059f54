# Anti-piracy pipeline, modelled in Dafny

This project models the decision and bookkeeping logic of an anti-piracy pipeline for online
marketplaces (Xiaohongshu, Xianyu, Taobao). The pipeline drives a phone, reads product listings
and compares each with a catalog of genuine products. It files complaints against pirated
listings and keeps a report ledger, and a small web backend runs patrol tasks.

The model has one module per source component:

- `PiracyDetector` (piracy_detector.dfy): matching a listing to the catalog, the shop, price
  and content checks, and the verdict with its confidence.
- `ProductDatabase` (product_database.dfy): the genuine-product catalog as a class over an
  insertion-ordered map, with search, the official-shop test, deletion and statistics.
- `ReportManager` (report_manager.dfy): the report ledger as a class. Records are created
  pending, evidence stays duplicate-free, statuses and notes are updated, and the ledger is
  filtered and counted.
- `Reporter` (reporter.dfy): the complaint text and the Xiaohongshu report workflow, driven
  step by step through the phone agent. It also covers the placeholder reporters and the
  `create_reporter` factory.
- The detection script `anti_piracy_system/test/test_detection.py`, split into several modules:
  - `OfficialShops`: the official-shop rule, folder-name sanitising and the evidence table.
  - `ProductExtractor`: price, shop and title extraction from the texts of a UI dump.
  - `ReportText`: the complaint text.
  - `AdbDevice`: the phone as a class whose command history grows. What a UI dump shows
    after a history is an uninterpreted function of that history. On top of it come the
    four-tier verified text input, locating by text, ordered candidate labels and input
    fields ranked by area.
  - `FillFlow`, `UploadFlow` and `ReportFlow`: filling the description, uploading the
    evidence images and the whole report flow.
  - `DetectionRun`: the run over the product grid with its page turns.
- `PhoneAgent` and `AntiPiracyAgent` (anti_piracy_agent.dfy): the patrol loop with its
  counters, the extraction of fields and price from the model's answer, and the report
  filed for each pirated listing. The language-model agent is an oracle that says which
  tasks raise and what the extraction task answers.
- `ApiServer` (api_server.dfy): request-parameter coercion, keyword de-duplication, parsing
  of `adb devices -l`, the log classifier and the status string.
- `TaskManagement` (task_manager.dfy): the bounded per-task log, the status transitions of a
  patrol task and the task table.
- `PatrolRouter` (patrol_router.dfy): the patrol routes (start, status, history, cancel) over
  an in-memory table, and the background run with its simulated progress and result.
- `Wrappers`, `Text` and `Seqs`: `Option`, the Python string operations used, and generic
  sequence tools (filtering, Python slicing, stable sort by key, counting).

Operations that change state are methods on classes, or on a device whose history they
extend. Each is specified by a function of the old state. The properties the code promises
are proved as lemmas about those functions, or as invariants the methods preserve.

## Model

| member | source | states |
|---|---|---|
| PiracyDetector.ToDict | anti_piracy_system/piracy_detector.py:49-62 | the dictionary names a matched product (its id and name) exactly when there is one, and carries the verdict, the confidence and the reasons unchanged |
| PiracyDetector.TextSimilarity | anti_piracy_system/piracy_detector.py:301-326 | the similarity lies in [0, 1]; it is 0 when either text is empty and when both cleaned texts are empty |
| PiracyDetector.SimilarityOfSame | anti_piracy_system/piracy_detector.py:312-326 | a text with something left after cleaning is fully similar (1.0) to itself |
| PiracyDetector.ExtractKeywords | anti_piracy_system/piracy_detector.py:328-348 | every keyword is longer than one character and is not a stop word |
| PiracyDetector.ExtractKeywordsExactly | anti_piracy_system/piracy_detector.py:338-346 | a word is a keyword exactly when it is a token of the punctuation-blanked text and passes the length and stop-word filter; every keyword is a whitespace-free token |
| PiracyDetector.CheckShopName | anti_piracy_system/piracy_detector.py:206-227 | the check passes exactly when the catalog calls the shop official for the matched record's id; the reason is marked with a tick on a pass and a cross on a failure |
| PiracyDetector.CheckPrice | anti_piracy_system/piracy_detector.py:229-252 | a non-positive original price passes with ratio 0; otherwise the ratio times the original is the current price, and the check passes exactly when the current price reaches the threshold share of the original; a failure's reason is marked with a cross |
| PiracyDetector.PriceAtThresholdPasses | anti_piracy_system/piracy_detector.py:247-250 | a price at exactly the threshold share of the original passes (the comparison is `>=`) |
| PiracyDetector.KeywordRatio | anti_piracy_system/piracy_detector.py:283-291 | the keyword share lies in [0, 1], is 0 without keywords, and is 1 exactly when every keyword occurs in the combined text |
| PiracyDetector.DescriptionSimilarity | anti_piracy_system/piracy_detector.py:275-281 | the description similarity lies in [0, 1] and is 0 unless both descriptions are present and non-empty |
| PiracyDetector.ContentScore | anti_piracy_system/piracy_detector.py:293-294 | the weighted score lies in [0, 1] and is 1 exactly when title, description and keyword scores are all 1 |
| PiracyDetector.ContentThresholdExtremes | anti_piracy_system/piracy_detector.py:296-299 | a similarity threshold above 1 is never met and one at or below 0 always is |
| PiracyDetector.CheckContent | anti_piracy_system/piracy_detector.py:254-299 | the keyword-counting loop yields exactly the content check of the specification |
| PiracyDetector.MatchSpec | anti_piracy_system/piracy_detector.py:173-204 | a match is always one of the catalog's records |
| PiracyDetector.MatchPrefersName | anti_piracy_system/piracy_detector.py:183-187 | when some record's name contains the title, the first such record is the match |
| PiracyDetector.MatchThenKeywords | anti_piracy_system/piracy_detector.py:189-194 | without a name hit, the first record matching a title keyword is the match |
| PiracyDetector.MatchNone | anti_piracy_system/piracy_detector.py:173-204 | there is no match exactly when neither the name search, nor the title keywords, nor a non-empty OCR text finds a record |
| PiracyDetector.EmptyTitleMatchesFirst | anti_piracy_system/piracy_detector.py:184-187 | an empty title is contained in every name, so it matches the first record of a non-empty catalog |
| PiracyDetector.MatchGenuineProduct | anti_piracy_system/piracy_detector.py:173-204 | the method over the database, with its early returns, gives the specified match |
| PiracyDetector.OcrSearch | anti_piracy_system/piracy_detector.py:196-202 | the OCR scan returns the first record that has keywords, one of which occurs in the text |
| PiracyDetector.Fuse | anti_piracy_system/piracy_detector.py:126-171 | a passing shop check gives "genuine" with confidence 0.9 and only the shop reason; otherwise the confidence is 0.4 plus 0.4 for a failed price check plus 0.2 for matching content, the reasons follow in that order, and the listing is pirated exactly when the price check failed; a pirated verdict has confidence at least 0.8 |
| PiracyDetector.Verdict | anti_piracy_system/piracy_detector.py:86-171 | no match gives a non-pirated verdict with confidence 0, one reason and no checks; a pirated verdict always has a match and failed shop and price checks |
| PiracyDetector.Detect | anti_piracy_system/piracy_detector.py:86-171 | the method, appending reasons and adding confidence step by step, returns exactly the specified verdict |
| PiracyDetector.FuseSteps | anti_piracy_system/piracy_detector.py:126-171 | appending the reasons and summing the confidence check by check gives exactly Fuse of the three checks |
| ProductDatabase.NewGenuineProduct | anti_piracy_system/product_database.py:13-36 | a missing creation or update time becomes the current time and missing keywords the empty list; every other field is kept |
| ProductDatabase.Catalog.Values | anti_piracy_system/product_database.py:139 | the values list the stored records once per key, in insertion order |
| ProductDatabase.Get | anti_piracy_system/product_database.py:126 | a record is returned exactly when the id is a key, and it is the stored one |
| ProductDatabase.RemoveKey | anti_piracy_system/product_database.py:200-201 | after `del`, the keys are the old keys but the deleted one, in their old order and still distinct |
| ProductDatabase.TableSize | anti_piracy_system/product_database.py:59 | a valid table has as many records as keys in its insertion order |
| ProductDatabase.ProductDatabase.constructor | anti_piracy_system/product_database.py:51-85 | the database starts with the table that loading produced |
| ProductDatabase.ProductDatabase.AddProduct | anti_piracy_system/product_database.py:97-114 | the record is stored under its id, with `updated_at` refreshed when the id was present (the key keeps its place) or appended as a new key; it always reports success |
| ProductDatabase.ProductDatabase.GetProduct | anti_piracy_system/product_database.py:116-126 | a record is returned exactly when the id is stored, and it is the stored record |
| ProductDatabase.ProductDatabase.GetAllProducts | anti_piracy_system/product_database.py:186-188 | the list holds exactly the stored records |
| ProductDatabase.ProductDatabase.SearchByName | anti_piracy_system/product_database.py:128-142 | the loop returns exactly the specified name matches, in table order |
| ProductDatabase.ProductDatabase.SearchByKeywords | anti_piracy_system/product_database.py:144-161 | the loop, skipping records without keywords, returns exactly the specified keyword matches, in table order |
| ProductDatabase.ProductDatabase.IsOfficialShop | anti_piracy_system/product_database.py:163-184 | the scan with its early returns gives exactly the specified official-shop answer |
| ProductDatabase.ProductDatabase.DeleteProduct | anti_piracy_system/product_database.py:190-206 | it reports whether the id was present; the table loses that key and nothing else, and the other keys keep their order |
| ProductDatabase.ProductDatabase.GetStats | anti_piracy_system/product_database.py:208-221 | the counting loop returns exactly the specified summary |
| ProductDatabase.NameMatchesExactly | anti_piracy_system/product_database.py:138-142 | a record is found by name exactly when its lower-cased name contains the lower-cased query |
| ProductDatabase.KeywordMatchesExactly | anti_piracy_system/product_database.py:154-161 | a record without keywords is never found; a record is found exactly when some lower-cased query keyword occurs in its lower-cased, space-joined keywords |
| ProductDatabase.NoKeywordsNoMatch | anti_piracy_system/product_database.py:159 | with no keywords to look for, keyword search finds nothing |
| ProductDatabase.OfficialById | anti_piracy_system/product_database.py:174-178 | with a product id, only that record decides, and an unknown id is never official |
| ProductDatabase.OfficialWithoutId | anti_piracy_system/product_database.py:180-184 | without a product id, or with the empty one, a shop is official exactly when some record lists it or is sold by it |
| ProductDatabase.StatsAddUp | anti_piracy_system/product_database.py:208-221 | `total_products` is the number of records, and the platform and category counts each add up to it |
| ProductDatabase.StatsCountPlatform | anti_piracy_system/product_database.py:213-214 | each platform's count is the number of records on that platform, and the platform keys are distinct |
| ReportManager.FullDetection | anti_piracy_system/piracy_detector.py:49-62 | a detection dictionary as `to_dict()` writes it is non-empty and holds the reasons, the confidence and the matched product name |
| ReportManager.ReasonTextShape | anti_piracy_system/report_manager.py:144-168 | a missing or empty detection gives the default reason; otherwise the text opens with the confidence header, and it ends with the matched product's line exactly when a non-empty name is present (without one it is the header and the numbered lines) |
| ReportManager.NumberedLinesSnoc | anti_piracy_system/report_manager.py:161-162 | appending a reason appends its line, numbered after the earlier ones |
| ReportManager.NumberedLinesSplit | anti_piracy_system/report_manager.py:161-162 | the lines of a split reason list are the lines of its parts, the second part numbered on |
| ReportManager.ReasonTextNumbersEveryReason | anti_piracy_system/report_manager.py:157-162 | every reason of the detection appears in the text, numbered by its 1-based position |
| ReportManager.ReportManager.GenerateReportReason | anti_piracy_system/report_manager.py:144-168 | the method concatenating in a loop returns exactly the specified reason text |
| ReportManager.Ledger.Values | anti_piracy_system/report_manager.py:246 | the values list the stored records once per key, in insertion order |
| ReportManager.ByPlatformExactly | anti_piracy_system/report_manager.py:236-246 | the records listed for a platform are exactly the stored records with that platform |
| ReportManager.ByStatusExactly | anti_piracy_system/report_manager.py:248-258 | the records listed for a status are exactly the stored records in that status |
| ReportManager.StatisticsAddUp | anti_piracy_system/report_manager.py:260-282 | `total_reports` is the number of records and both distributions add up to it |
| ReportManager.StatisticsCountStatus | anti_piracy_system/report_manager.py:271-276 | each status's count is the number of records in that status, and the status keys are distinct |
| ReportManager.LedgerSize | anti_piracy_system/report_manager.py:267 | a valid ledger has as many records as keys in its insertion order |
| ReportManager.ReportManager.constructor | anti_piracy_system/report_manager.py:50-85 | the ledger starts with the table that loading produced |
| ReportManager.ReportManager.CreateReport | anti_piracy_system/report_manager.py:96-142 | a `pending` record with no evidence and no notes, with the generated reason and the given target, is stored under `report_<stamp>_<number of records>` (a taken id is overwritten in place, a new one appended); duplicate-free evidence lists stay duplicate-free |
| ReportManager.ReportManager.AddScreenshot | anti_piracy_system/report_manager.py:170-192 | it succeeds exactly when the id is stored and the path is not yet listed, and then appends only that path; otherwise nothing changes |
| ReportManager.ReportManager.UpdateStatus | anti_piracy_system/report_manager.py:194-222 | it succeeds exactly when the id is stored, then sets any status and replaces the notes only with non-empty notes; otherwise nothing changes |
| ReportManager.ReportManager.GetReport | anti_piracy_system/report_manager.py:224-234 | a record is returned exactly when the id is stored, and it is the stored one |
| ReportManager.ReportManager.GetReportsByPlatform | anti_piracy_system/report_manager.py:236-246 | the list holds exactly the stored records with that platform |
| ReportManager.ReportManager.GetReportsByStatus | anti_piracy_system/report_manager.py:248-258 | the list holds exactly the stored records with that status |
| ReportManager.ReportManager.GetStatistics | anti_piracy_system/report_manager.py:260-282 | the one-pass counting loop returns exactly the specified summary |
| Reporter.CleanDropsMarks | anti_piracy_system/reporter.py:123-125 | no ✅ or ❌ is left in a cleaned reason |
| Reporter.CleanKeepsPlain | anti_piracy_system/reporter.py:125 | a reason carrying none of the three marks is kept as it is |
| Reporter.ReasonLines | anti_piracy_system/reporter.py:104-126 | the heading and the 商品/店铺/价格 lines come first; every detection reason comes last, once each, in order, as a cleaned bullet |
| Reporter.LineShapes | anti_piracy_system/reporter.py:107-122 | only the genuine block's heading is `【正版信息】`, and only its price line starts with `正版价` |
| Reporter.GenuineBlockExactly | anti_piracy_system/reporter.py:112-118 | the genuine block appears exactly when a product name was matched, and its price line exactly when the original price is also truthy |
| Reporter.GenerateReportReason | anti_piracy_system/reporter.py:94-128 | appending the lines one by one and joining them gives exactly the specified reason text |
| Reporter.Plan | anti_piracy_system/reporter.py:244-292 | every named step has a prompt; the upload step is planned exactly when there is a screenshot; exactly the menu, report-entry, report-type and submit steps abort the report on failure |
| Reporter.RunStagesOutcome | anti_piracy_system/reporter.py:244-297 | the stage sequence succeeds exactly when no aborting stage raises; a success sends every stage's prompt, and a failure stops right after the first aborting stage that raised |
| Reporter.EvidenceFile | anti_piracy_system/reporter.py:79-81 | the evidence name starts with `evidence_` and ends with `.png` |
| Reporter.PlatformOf | anti_piracy_system/reporter.py:386-396 | there is no reporter (the `ValueError`) exactly for a name outside xiaohongshu, xianyu and taobao, and `xiaohongshu` alone picks the working reporter |
| Reporter.PlatformReporter.constructor | anti_piracy_system/reporter.py:41-53 | the reporter keeps its platform, agent and screenshot directory |
| Reporter.PlatformReporter.ExecuteStepWithPrompt | anti_piracy_system/reporter.py:322-337 | the prompt is sent to the agent once, and the step succeeds exactly when the agent does not raise |
| Reporter.PlatformReporter.ExecuteStep | anti_piracy_system/reporter.py:305-320 | an unknown step fails without calling the agent; a known step sends its prompt |
| Reporter.PlatformReporter.RunStage | anti_piracy_system/reporter.py:246-292 | one stage sends its prompt, and the run may go on unless the stage aborts on failure and the agent raised |
| Reporter.PlatformReporter.ExecuteReport | anti_piracy_system/reporter.py:221-361 | Xiaohongshu sets the screenshot path, runs the stages as specified and stops at the first aborting failure; the Xianyu and Taobao placeholders (the two classes at the end of this range) fail without calling the agent and leave the context unchanged |
| Reporter.CreateReporter | anti_piracy_system/reporter.py:365-396 | a fresh reporter, with the given agent and directory, exactly for a known platform; nothing otherwise |
| Reporter.ExecuteOutcome | anti_piracy_system/reporter.py:238-297 | a Xiaohongshu report succeeds exactly when none of the menu, entry, type and submit steps raises, since the fill and upload steps may fail; the upload step is always planned, because a screenshot path is always produced |
| OfficialShops.MatchesListed | anti_piracy_system/test/test_detection.py:77-79 | true exactly when some listed official name occurs in the shop name or the shop name occurs in it |
| OfficialShops.ContainsAny | anti_piracy_system/test/test_detection.py:85-87 | true exactly when some brand part occurs in the shop name |
| OfficialShops.IsOfficialShop | anti_piracy_system/test/test_detection.py:62-89 | the empty name is never official; a name is official exactly when it is non-empty and overlaps a listed official shop, or says 官方 and contains one of 众合, 法考, 教育 |
| OfficialShops.ListedPartsAreOfficial | anti_piracy_system/test/test_detection.py:77-79 | every non-empty part of a listed shop name counts as official |
| OfficialShops.ListedAreOfficial | anti_piracy_system/test/test_detection.py:54-59 | each of the four listed shops counts as official |
| OfficialShops.SelfDeclaredOfficial | anti_piracy_system/test/test_detection.py:82-87 | a name ending in 官方 that contains 众合 counts as official, whatever else it says |
| OfficialShops.Sanitize | anti_piracy_system/test/test_detection.py:114 | the sanitised name has the same length, each of the nine reserved characters (backslash, slash, colon, asterisk, question mark, double quote, less-than, greater-than, vertical bar) becomes `_`, and every other character stays (the same substitution is applied to shop names at line 131 and line 167) |
| OfficialShops.SanitizeIdempotent | anti_piracy_system/test/test_detection.py:131 | sanitising a sanitised name changes nothing |
| OfficialShops.Basename | anti_piracy_system/test/test_detection.py:171-172 | the base name holds no `/` |
| OfficialShops.ShopReportOf | anti_piracy_system/test/test_detection.py:164-174 | a shop's report entry carries its name and sanitised folder; without saved info its title and price are null |
| OfficialShops.EvidenceManager.constructor | anti_piracy_system/test/test_detection.py:109-124 | a new manager has no shops, keeps its keyword and timestamp, and has its folder `<timestamp>_<keyword>` under the base folder |
| OfficialShops.ShopDir | anti_piracy_system/test/test_detection.py:128-134 | a shop's folder ends with the shop's sanitised name |
| OfficialShops.ProductEvidenceFacts | anti_piracy_system/test/test_detection.py:1631-1668 | saving one product's evidence lists its shop once at the end on first use, always sets the shop's facts, sets each screenshot path exactly when that screenshot exists and keeps the old one otherwise, and leaves every other shop as it was |
| OfficialShops.ProductEvidenceSound | anti_piracy_system/test/test_detection.py:1631-1668 | saving one product's evidence keeps every shop listed once, with exactly the listed shops having an entry |
| OfficialShops.EvidenceManager.FolderName | anti_piracy_system/test/test_detection.py:112-116 | the evidence folder name starts with the timestamp and `_` |
| OfficialShops.EvidenceManager.Touch | anti_piracy_system/test/test_detection.py:138-139 | an unknown shop gets an empty entry appended in first-seen order; a known shop keeps its entry and place |
| OfficialShops.EvidenceManager.SaveProductScreenshot | anti_piracy_system/test/test_detection.py:136-140 | only the shop's product screenshot path changes, the entry being created first when the shop is new |
| OfficialShops.EvidenceManager.SaveShopScreenshot | anti_piracy_system/test/test_detection.py:142-146 | only the shop's shop screenshot path changes, the entry being created first when the shop is new |
| OfficialShops.EvidenceManager.SaveShopInfo | anti_piracy_system/test/test_detection.py:148-152 | only the shop's info changes, the entry being created first when the shop is new |
| OfficialShops.EvidenceManager.SaveReport | anti_piracy_system/test/test_detection.py:154-175 | the report keeps the keyword and timestamp, counts the shops, and has one entry per shop in first-seen order |
| ProductExtractor.NumberStart | anti_piracy_system/test/test_detection.py:851 | the index of the first digit or dot, or the length when there is none |
| ProductExtractor.RunLength | anti_piracy_system/test/test_detection.py:851 | the run is as long as possible, and made only of digits and dots |
| ProductExtractor.NumberRun | anti_piracy_system/test/test_detection.py:851 | there is no match exactly when the text has no digit or dot; a match is the non-empty, maximal run of digits and dots that begins at the first of them |
| ProductExtractor.SplitCount | anti_piracy_system/test/test_detection.py:854 | splitting on a character gives one more part than the character occurs |
| ProductExtractor.SplitOnParts | anti_piracy_system/test/test_detection.py:854 | the parts of a dotted run are digit strings |
| ProductExtractor.RunHasDigit | anti_piracy_system/test/test_detection.py:854 | a non-empty run with at most one dot that is not the dot alone holds a digit |
| ProductExtractor.ParseDecimal | anti_piracy_system/test/test_detection.py:853-858 | `float()` of the run succeeds exactly when it has at most one dot and some digit, and the value is never negative |
| ProductExtractor.ParseNatToString | anti_piracy_system/test/test_detection.py:851-854 | the decimal text of a number is a run that parses back to that number |
| ProductExtractor.MaxPrice | anti_piracy_system/test/test_detection.py:849-858 | the price is one that some text offers and is at least every offered price; there is none exactly when no text offers one |
| ProductExtractor.ShopName | anti_piracy_system/test/test_detection.py:860-880 | a shop name is one of the texts and passes the shop-keyword rule or the 教育 fallback rule |
| ProductExtractor.Extract | anti_piracy_system/test/test_detection.py:837-890 | no texts give no fields; a title is one of the texts of more than 15 characters without a skip word; a shop is one of the texts |
| ProductExtractor.ShopNameFirst | anti_piracy_system/test/test_detection.py:864-872 | the shop is the first text passing the shop-keyword rule |
| ProductExtractor.ShopNameFallback | anti_piracy_system/test/test_detection.py:874-880 | only when no text passes the first rule, the shop is the first text passing the fallback rule |
| ProductExtractor.ScanPrice | anti_piracy_system/test/test_detection.py:849-858 | the price loop keeps exactly the specified largest price |
| ProductExtractor.ScanShop | anti_piracy_system/test/test_detection.py:860-880 | the two shop loops, each stopping at its first hit, give exactly the specified shop |
| ProductExtractor.ScanTitle | anti_piracy_system/test/test_detection.py:882-888 | the title loop keeps the first title-like text |
| ProductExtractor.ExtractFromXml | anti_piracy_system/test/test_detection.py:837-890 | the three loops over the non-blank texts give exactly the specified extraction |
| ReportText.PiracyKeywords | anti_piracy_system/test/test_detection.py:914-932 | without a title no description; never more descriptions than patterns |
| ReportText.HitsExactly | anti_piracy_system/test/test_detection.py:930-932 | a description is collected exactly when some pattern with that description occurs in the title |
| ReportText.PiracyKeywordsExactly | anti_piracy_system/test/test_detection.py:914-932 | a description is listed iff the title is non-empty and contains a pattern described that way |
| ReportText.KeywordEvidence | anti_piracy_system/test/test_detection.py:934-939 | the fallback sentence exactly when no description was found; otherwise the lead and the tail wrap the joined descriptions |
| ReportText.FirstThreeRendered | anti_piracy_system/test/test_detection.py:935-937 | only the first three descriptions reach the text |
| ReportText.FallbackExactly | anti_piracy_system/test/test_detection.py:934-939 | the fallback sentence is used iff the title is empty or contains no pattern |
| ReportText.ShopType | anti_piracy_system/test/test_detection.py:942-945 | the shop is said to impersonate an official one iff its name contains 旗舰, 官方 or 专营, and is called personal otherwise |
| ReportText.PriceText | anti_piracy_system/test/test_detection.py:911 | the no-price wording exactly when there is no price or it is zero |
| ReportText.GenerateReportText | anti_piracy_system/test/test_detection.py:895-954 | the text opens with the greeting and the price point and ends with the shop point and the closing line |
| ReportText.ReportTextDistribution | anti_piracy_system/test/test_detection.py:948-952 | the text carries the point about the piracy evidence found in the title |
| ReportText.ReportTextShop | anti_piracy_system/test/test_detection.py:948-952 | the text carries the shop's quoted name and its type |
| AdbDevice.Int | anti_piracy_system/test/test_detection.py:1410 | Python's int() of a float truncates toward zero: within one below a non-negative value, within one above a negative one |
| AdbDevice.Locate | anti_piracy_system/test/test_detection.py:720-733 | a located node is in a non-empty dump and its text contains the label; none is located iff the dump is empty or no node's text contains it |
| AdbDevice.LocateFirst | anti_piracy_system/test/test_detection.py:726-727 | the located node is the first such node in document order |
| AdbDevice.ClickSteps | anti_piracy_system/test/test_detection.py:734-739 | at most one tap, and none exactly when nothing is located |
| AdbDevice.FirstLabel | anti_piracy_system/test/test_detection.py:1455-1459 | the index of a label the screen shows; none iff no label is shown |
| AdbDevice.FirstLabelIs | anti_piracy_system/test/test_detection.py:1455-1459 | the first shown label wins: every earlier label is absent |
| AdbDevice.VerifyKey | anti_piracy_system/test/test_detection.py:486 | the key has at most 10 characters and no newline or space, and is the start of the text with those removed |
| AdbDevice.Escape | anti_piracy_system/test/test_detection.py:562 | the escaped text contains no space |
| AdbDevice.SmartInput | anti_piracy_system/test/test_detection.py:468-573 | success iff some tier's dump shows the key or the text has no CJK ideograph; a verified first tier stops there; input text is sent iff no tier verified and there is no CJK; a failure has sent exactly the three tiers |
| AdbDevice.InputElementsOrdered | anti_piracy_system/test/test_detection.py:667-703 | the listed fields are in decreasing area and are a permutation of the pattern matches |
| AdbDevice.Device.constructor | anti_piracy_system/test/test_detection.py:228-241 | a device with no commands sent, the reported screen size and its screen function |
| AdbDevice.Device.Tap | anti_piracy_system/test/test_detection.py:243-247 | one tap is appended to the history |
| AdbDevice.Device.Swipe | anti_piracy_system/test/test_detection.py:249-257 | one swipe with its duration is appended to the history |
| AdbDevice.Device.Back | anti_piracy_system/test/test_detection.py:285-289 | one back key press is appended to the history |
| AdbDevice.Device.ClearText | anti_piracy_system/test/test_detection.py:592-595 | one clear of min(count, 20) delete presses is appended |
| AdbDevice.Device.SwipeLeftBottom | anti_piracy_system/test/test_detection.py:276-283 | one swipe along the bottom panel, right to left, is appended |
| AdbDevice.Device.SwipeUpList | anti_piracy_system/test/test_detection.py:267-274 | one swipe up by a page of the list is appended |
| AdbDevice.Device.FindAndClickText | anti_piracy_system/test/test_detection.py:720-739 | the result says whether the current screen showed the label, and the history grows by exactly the tap on its first node |
| AdbDevice.Device.ClickFirst | anti_piracy_system/test/test_detection.py:1505-1510 | the index of the first label shown, and the history grows by exactly the taps of the tries up to it |
| AdbDevice.Device.InputTextSmart | anti_piracy_system/test/test_detection.py:468-573 | the commands sent and the reported success are those of SmartInput from the history before the call |
| AdbDevice.Device.FindInputElements | anti_piracy_system/test/test_detection.py:667-703 | the fields returned are InputElements of the current screen |
| FillFlow.LargestAt | anti_piracy_system/test/test_detection.py:1232 | the index of a node of largest area, and the first of the largest ones, as max() keeps the first maximum |
| FillFlow.Leaves | anti_piracy_system/test/test_detection.py:1208-1209 | restricting the dump to self-closing nodes keeps it dumped exactly when it was |
| FillFlow.EditTextFirst | anti_piracy_system/test/test_detection.py:1203-1237 | whenever the dump has an EditText, the field tapped is the centre of an EditText at least as large as any other |
| FillFlow.HintSecond | anti_piracy_system/test/test_detection.py:1239-1261 | without an EditText, the first hint shown in a self-closing node decides the tapped position, in hint order |
| FillFlow.FocusTaps | anti_piracy_system/test/test_detection.py:1290-1314 | the taps that focus the field end with the same position tapped twice |
| FillFlow.FillSpec | anti_piracy_system/test/test_detection.py:1174-1365 | fill_report_text reports success whatever the screens show |
| FillFlow.FillTypesAfterClearing | anti_piracy_system/test/test_detection.py:1311-1358 | the history is the focusing taps and the clear, then exactly the smart-input commands, then the tap that closes the keyboard |
| FillFlow.FocusField | anti_piracy_system/test/test_detection.py:1196-1314 | the device receives exactly the focusing taps for the screen it shows |
| FillFlow.FillReportText | anti_piracy_system/test/test_detection.py:1174-1365 | the device's new history and the result are those of FillSpec from the history before the call |
| UploadFlow.NodeTitled | anti_piracy_system/test/test_detection.py:989-993 | a node found has exactly the text looked for and is in a non-empty dump; none is found iff no node has that text |
| UploadFlow.PickedInOrder | anti_piracy_system/test/test_detection.py:1079-1112 | the picked images are gallery images of this dump, sorted top to bottom and then left to right, and there are min(max_images, images found) of them |
| UploadFlow.GridTaps | anti_piracy_system/test/test_detection.py:1114-1129 | one fixed grid tap for each index from the images already selected up to max_images, at the grid position of that index |
| UploadFlow.ConfirmSteps | anti_piracy_system/test/test_detection.py:1136-1168 | confirming is always exactly one tap |
| UploadFlow.UploadCount | anti_piracy_system/test/test_detection.py:1077-1171 | with a non-negative max_images exactly max_images images are tapped, so the upload succeeds iff max_images > 0 |
| UploadFlow.ImageTapsOrder | anti_piracy_system/test/test_detection.py:1106-1129 | the picked images are tapped first, in order, and the grid taps continue their numbering up to max_images |
| UploadFlow.OpenAlbum | anti_piracy_system/test/test_detection.py:979-1073 | the device receives exactly the commands that open the album from the current history |
| UploadFlow.TapImages | anti_piracy_system/test/test_detection.py:1076-1129 | the device receives exactly the image taps, and the count returned is their number |
| UploadFlow.Confirm | anti_piracy_system/test/test_detection.py:1136-1168 | the device receives exactly the confirming tap for the screen it shows |
| UploadFlow.UploadEvidenceImages | anti_piracy_system/test/test_detection.py:957-1171 | the device's new history and the result are those of UploadSpec from the history before the call |
| ReportFlow.Swipes | anti_piracy_system/test/test_detection.py:1422-1423 | n swipes along the bottom panel and nothing else |
| ReportFlow.SwipesShift | anti_piracy_system/test/test_detection.py:1422-1423 | one swipe in front of n - 1 more is the same history as n swipes |
| ReportFlow.SwipeSearchFails | anti_piracy_system/test/test_detection.py:1420-1426 | the swipe search fails iff the entry is missing after every one of the n swipes, and a failed search has made only the swipes |
| ReportFlow.EntryMissed | anti_piracy_system/test/test_detection.py:1414-1434 | no report entry iff it is missing before and after each of the three swipes and 更多 is missing after the last; then only the three swipes were made |
| ReportFlow.Choose | anti_piracy_system/test/test_detection.py:1454-1464 | the first label shown is tapped once, or else the fallback position is tapped |
| ReportFlow.ReportOutcome | anti_piracy_system/test/test_detection.py:1368-1524 | without a report entry the flow taps share, swipes three times, goes back and fails; with one it succeeds iff a submit label is shown after the images are uploaded; every failure ends with a back press |
| ReportFlow.FindEntry | anti_piracy_system/test/test_detection.py:1414-1434 | the device's new history and the result are those of the entry search from the history before the call |
| ReportFlow.ChooseOn | anti_piracy_system/test/test_detection.py:1454-1490 | the device's new history is Choose of the labels and fallback from the history before the call |
| ReportFlow.Prepare | anti_piracy_system/test/test_detection.py:1441-1501 | the device receives exactly the type choice, the reason choice, the text fill and the upload of three images |
| ReportFlow.Submit | anti_piracy_system/test/test_detection.py:1503-1524 | the device's new history and the result are those of the submit step: a submit label and the dialog acknowledged, or a back press and failure |
| ReportFlow.ReportProduct | anti_piracy_system/test/test_detection.py:1368-1524 | the device's new history and the result are those of ReportSpec with the generated report text, from the history before the call |
| DetectionRun.PriceOr | anti_piracy_system/test/test_detection.py:1622 | Python's or on prices: the first price unless it is missing or zero, else the second |
| DetectionRun.MergeInfo | anti_piracy_system/test/test_detection.py:1619-1624 | the record has the 1-based index; title and price prefer the top screen; the shop is never empty and prefers the bottom screen's name |
| DetectionRun.TapPosition | anti_piracy_system/test/test_detection.py:1565-1577 | columns at a quarter and three quarters of the width, rows at 40% and 70% of the height |
| DetectionRun.GridPositionsDistinct | anti_piracy_system/test/test_detection.py:1565-1577 | the four grid positions are pairwise different on a screen of at least 4 by 4 pixels |
| DetectionRun.TextsOf | anti_piracy_system/test/test_detection.py:1596-1597 | one text per node of a dump in document order, and none without a dump |
| DetectionRun.ProductSpec | anti_piracy_system/test/test_detection.py:1527-1708 | every product ends with a back press and carries its index and a non-empty shop; without report mode no official or reported flag; in report mode the official flag is the shop check, and an official shop is not reported |
| DetectionRun.ReportedProduct | anti_piracy_system/test/test_detection.py:1682-1699 | a non-official product in report mode is marked not official and carries a report outcome, keeps its index and shop, and ends with the back press to the list |
| DetectionRun.ProductOf | anti_piracy_system/test/test_detection.py:1775-1779 | the product step keeps the index, and without report mode never marks a report |
| DetectionRun.ResultsFromNonRaising | anti_piracy_system/test/test_detection.py:1763-1788 | each result is one of the first n products and one that did not raise |
| DetectionRun.ResultsOrdered | anti_piracy_system/test/test_detection.py:1763-1788 | the results come in increasing product order |
| DetectionRun.ResultsCover | anti_piracy_system/test/test_detection.py:1763-1788 | every product among the first n that did not raise has a result |
| DetectionRun.NothingReportedWithoutReportMode | anti_piracy_system/test/test_detection.py:1802 | without report mode no result carries a report outcome, so the reported count is zero |
| DetectionRun.PageCounter | anti_piracy_system/test/test_detection.py:1761-1772 | the page counter says a list swipe is due exactly at the first product of each new page, and gives the grid position |
| DetectionRun.SaveEvidence | anti_piracy_system/test/test_detection.py:1631-1668 | the table becomes ProductEvidence of the old table: the existing screenshots are filed under the shop's folder and the merged title and price are saved |
| DetectionRun.ExtractSingleProduct | anti_piracy_system/test/test_detection.py:1527-1708 | the returned record and the device's new history are those of ProductSpec from the history before the call, and the evidence table becomes ProductEvidence of the old table for the record's shop and the screenshots that exist |
| DetectionRun.IterationOn | anti_piracy_system/test/test_detection.py:1765-1788 | one iteration: the page swipe when due, then the product, or a back press and no result when it raises |
| DetectionRun.RunStep | anti_piracy_system/test/test_detection.py:1765-1788 | one pass of the loop keeps the loop's invariant: results and history become those of RunSpec over one more product, and the page counter moves on by one product |
| DetectionRun.RecordedSound | anti_piracy_system/test/test_detection.py:1757-1794 | a run's evidence saves keep every shop listed once, with exactly the listed shops having an entry |
| DetectionRun.RecordedShops | anti_piracy_system/test/test_detection.py:1757-1794 | after a run the evidence table has entries for exactly the shops it had before and the shops of the results |
| DetectionRun.RecordedLast | anti_piracy_system/test/test_detection.py:1757-1794 | a later product from the same shop overwrites the facts: the shop of a result holds that result's title and price when no later result is from that shop |
| DetectionRun.RunDetection | anti_piracy_system/test/test_detection.py:1757-1794 | the results and the device's new history are those of RunSpec over the first n products; the evidence table becomes Recorded of the old table over the results, with the shops of the results added; the returned report is `save_report`'s contents of that table |
| PhoneAgent.Agent.constructor | anti_piracy_system/anti_piracy_agent.py:58-61 | an agent that has sent no task yet, with its raising oracle |
| PhoneAgent.Agent.Run | anti_piracy_system/anti_piracy_agent.py:204 | the task is appended to the calls whether or not it raises, and the call raises exactly when the oracle says so for the earlier calls |
| AntiPiracyAgent.PlatformName | anti_piracy_system/config_anti_piracy.py:36-52 | a platform name exists exactly for xiaohongshu, xianyu and taobao |
| AntiPiracyAgent.DigitStart | anti_piracy_system/anti_piracy_agent.py:298 | the index of the first ASCII digit: none before it, a digit at it, or the length when there is none |
| AntiPiracyAgent.DigitRun | anti_piracy_system/anti_piracy_agent.py:298 | the leading run of digits is made of digits and is as long as possible |
| AntiPiracyAgent.FirstNumber | anti_piracy_system/anti_piracy_agent.py:298 | no match iff the text has no digit; a match has a non-empty digit whole part and a digit fraction, and starts at the first digit |
| AntiPiracyAgent.DecimalValue | anti_piracy_system/anti_piracy_agent.py:298 | float() of a match is never negative |
| AntiPiracyAgent.PriceOf | anti_piracy_system/anti_piracy_agent.py:292-300 | the price is never negative, and 0.0 when the price value is false to Python (`None`, `False`, zero, the empty text or an empty container) |
| AntiPiracyAgent.NumberIn | anti_piracy_system/anti_piracy_agent.py:295-300 | the number read is never negative, and 0.0 when the text has no digit (the IndexError path) |
| AntiPiracyAgent.PriceTextDigits | anti_piracy_system/anti_piracy_agent.py:297 | removing ¥, 元 and the blanks around keeps a digit exactly when there was one |
| AntiPiracyAgent.PriceWithoutDigits | anti_piracy_system/anti_piracy_agent.py:294-300 | a truthy price field without any digit leaves the price at 0.0 |
| AntiPiracyAgent.PriceTextOfDigits | anti_piracy_system/anti_piracy_agent.py:297 | the marks around a run of digits are removed and nothing else |
| AntiPiracyAgent.FirstNumberOfDigits | anti_piracy_system/anti_piracy_agent.py:298 | a run of digits reads as its decimal value |
| AntiPiracyAgent.PriceOfDigits | anti_piracy_system/anti_piracy_agent.py:292-300 | ¥ digits 元 reads as the value of the digits |
| AntiPiracyAgent.PriceOfWhole | anti_piracy_system/anti_piracy_agent.py:292-300 | ¥ n 元 reads as n |
| AntiPiracyAgent.FirstNumberWins | anti_piracy_system/anti_piracy_agent.py:298 | of several numbers the first counts |
| AntiPiracyAgent.Shown | anti_piracy_system/anti_piracy_agent.py:297 | `str()` of a true value is never empty, and a text shows as itself |
| AntiPiracyAgent.Get | anti_piracy_system/anti_piracy_agent.py:272 | `dict.get` of a missing key is `None`, the same as a key present with `null` |
| AntiPiracyAgent.OrChain | anti_piracy_system/anti_piracy_agent.py:272-290 | the result is true to Python iff some key's value is; then it is the value of the first such key, and otherwise the last key's value |
| AntiPiracyAgent.OrChainFirst | anti_piracy_system/anti_piracy_agent.py:272-290 | the first key whose value is true decides the chain |
| AntiPiracyAgent.OrChainDecides | anti_piracy_system/anti_piracy_agent.py:272-290 | for every key, it decides the chain when its value is true and every earlier one is false |
| AntiPiracyAgent.FieldOr | anti_piracy_system/anti_piracy_agent.py:272-285 | the chain ending in a literal fallback is never empty, is the fallback iff no key's value is true, and otherwise is the text of the first true value |
| AntiPiracyAgent.TextOf | anti_piracy_system/anti_piracy_agent.py:302-303 | a description or OCR text is present iff its value is true, and then it is that value's non-empty `str()` text |
| AntiPiracyAgent.InfoFromFields | anti_piracy_system/anti_piracy_agent.py:267-319 | the listing has the platform name, a non-negative price and a non-empty title and shop. The title is 未识别商品_<index> when no title key has a value true to Python (null, false, zero and empty values included), and otherwise the text of the first true one; the shop likewise with 未知店铺. The price is PriceOf of the price chain, and the description and OCR text are TextOf of theirs |
| AntiPiracyAgent.ExtractSpec | anti_piracy_system/anti_piracy_agent.py:234-341 | no listing exactly when opening its page raises, with only that task sent; otherwise the extraction task follows and the listing carries the platform |
| AntiPiracyAgent.ExtractFallbacks | anti_piracy_system/anti_piracy_agent.py:260-319 | when neither task raises and the answer is a non-empty dictionary (even one whose values are all null), the listing is read from its fields, with 未识别商品_<index> and 未知店铺 when no title or shop key has a true value |
| AntiPiracyAgent.NullAnswer | anti_piracy_system/anti_piracy_agent.py:267-312 | an answer whose every value is null gives title 未识别商品_<index>, shop 未知店铺 and price 0.0 |
| AntiPiracyAgent.AllNullAnswer | anti_piracy_system/anti_piracy_agent.py:267-312 | `{"title": null, "shop_name": null, "price": null}` is non-empty and gives title 未识别商品_<index>, shop 未知店铺 and price 0.0 |
| AntiPiracyAgent.FalsyNumberSkipped | anti_piracy_system/anti_piracy_agent.py:287-290 | a price of 0 is false to Python, so the chain moves on to the `价格` value |
| AntiPiracyAgent.ZeroPriceThenText | anti_piracy_system/anti_piracy_agent.py:287-300 | `{"price": 0, "价格": "¥59元"}` is priced 59.0 |
| AntiPiracyAgent.ScreenshotPath | anti_piracy_system/anti_piracy_agent.py:447-466 | the screenshot path ends in .png |
| AntiPiracyAgent.ReportedRecord | anti_piracy_system/anti_piracy_agent.py:387-445 | a report keeps the ledger well formed and adds exactly one record under the next id; it is submitted with its note iff the report task does not raise, failed with the error otherwise; it has the generated reason and the screenshot as its one evidence item |
| AntiPiracyAgent.PutRecord | anti_piracy_system/anti_piracy_agent.py:405-417 | putting a record with one evidence item under an id keeps the ledger well formed and free of repeated evidence |
| AntiPiracyAgent.ExaminedAccounts | anti_piracy_system/anti_piracy_agent.py:139-166 | the rest of a turn keeps the session's counts: reported ≤ piracy ≤ checked ≤ turns, one result per checked listing, piracy counts the pirated results, and in test mode reported equals piracy |
| AntiPiracyAgent.ItemAccounts | anti_piracy_system/anti_piracy_agent.py:129-166 | one turn keeps those counts |
| AntiPiracyAgent.PatrolAccounts | anti_piracy_system/anti_piracy_agent.py:129-166 | the whole patrol keeps those counts |
| AntiPiracyAgent.ExaminedKeepsLedger | anti_piracy_system/anti_piracy_agent.py:149-159 | the rest of a turn keeps the ledger well formed and its evidence without repeats, and leaves it unchanged in test mode |
| AntiPiracyAgent.ItemKeepsLedger | anti_piracy_system/anti_piracy_agent.py:129-166 | one turn does the same |
| AntiPiracyAgent.PatrolKeepsLedger | anti_piracy_system/anti_piracy_agent.py:129-166 | the whole patrol does the same |
| AntiPiracyAgent.SkippedItem | anti_piracy_system/anti_piracy_agent.py:133-137 | a listing whose page cannot be opened changes only the call history, by that one task |
| AntiPiracyAgent.ExaminedSends | anti_piracy_system/anti_piracy_agent.py:143-166 | one more result is recorded; the report task is sent iff the listing is pirated outside test mode; then the way back, and a scroll iff (i + 1) % 5 == 0 |
| AntiPiracyAgent.CheckedItem | anti_piracy_system/anti_piracy_agent.py:129-166 | a listing that opens is extracted and checked, its result recorded, its report sent iff pirated outside test mode, and the turn ends with the way back and the scroll every fifth listing |
| AntiPiracyAgent.Agent.constructor | anti_piracy_system/anti_piracy_agent.py:34-94 | an agent for a supported platform, with a fresh session and the default detector thresholds |
| AntiPiracyAgent.Agent.LaunchAndSearchFor | anti_piracy_system/anti_piracy_agent.py:185-232 | the search task is sent, then the switch to the 商品 tab on xiaohongshu when the search did not raise; success iff the search did not raise |
| AntiPiracyAgent.Agent.ExtractProductInfo | anti_piracy_system/anti_piracy_agent.py:234-341 | the tasks sent and the listing are those of ExtractSpec from the calls before |
| AntiPiracyAgent.Agent.ReportPiracy | anti_piracy_system/anti_piracy_agent.py:387-445 | the report task is sent once, success iff it does not raise, and the ledger becomes Reported of the old ledger |
| AntiPiracyAgent.Agent.FileReport | anti_piracy_system/anti_piracy_agent.py:405-417 | the pending record is filed under the next id with the screenshot as its one evidence item, and the order lists it once |
| AntiPiracyAgent.Agent.Judge | anti_piracy_system/anti_piracy_agent.py:150-159 | the calls, session and ledger become those Verdicted describes |
| AntiPiracyAgent.Agent.PatrolItem | anti_piracy_system/anti_piracy_agent.py:129-166 | one turn: the calls, session and ledger become those of ItemSpec |
| AntiPiracyAgent.Agent.Examine | anti_piracy_system/anti_piracy_agent.py:140-166 | the turn after extraction: the calls, session and ledger become those of Examined |
| AntiPiracyAgent.Agent.StartPatrol | anti_piracy_system/anti_piracy_agent.py:96-183 | a fresh session, the search and max_items turns, as StartSpec says; the returned session keeps the counts, and in test mode the ledger is left as it was |
| AntiPiracyAgent.NewAgent | anti_piracy_system/anti_piracy_agent.py:72-76 | no agent (the ValueError) exactly for an unsupported platform; otherwise a fresh agent for that platform |
| ApiServer.AsBoolDefault | anti_piracy_system/api_server.py:54-65 | the two word sets do not overlap; the default decides exactly for values that are not a boolean, a number or a recognised word; a true word gives True and a false word False |
| ApiServer.NormalizedIdempotent | anti_piracy_system/api_server.py:60 | stripping and lower-casing twice is doing it once |
| ApiServer.AsBoolNormalizes | anti_piracy_system/api_server.py:59-64 | surrounding blanks and capitals never change the answer |
| ApiServer.AsBoolWords | anti_piracy_system/api_server.py:61-64 | each listed word, sent as written, reads back as its own truth value |
| ApiServer.ParseIntText | anti_piracy_system/api_server.py:70 | int() of a string succeeds only on a string that is not blank |
| ApiServer.Truncate | anti_piracy_system/api_server.py:70 | int() of a float truncates toward zero |
| ApiServer.AsInt | anti_piracy_system/api_server.py:68-73 | the default exactly when int() raises, the converted value otherwise |
| ApiServer.NatNumeral | anti_piracy_system/api_server.py:70 | the decimal text of a natural number is a numeral with that value |
| ApiServer.AsIntRoundTrip | anti_piracy_system/api_server.py:68-73 | a number sent as its decimal text reads back as that number, whatever the default |
| ApiServer.AsStr | anti_piracy_system/api_server.py:76-82 | None gives the default; a non-blank string its trimmed text; a blank string the default; a boolean True or False |
| ApiServer.AsStrNeat | anti_piracy_system/api_server.py:76-82 | with a trimmed, non-blank default the result is always trimmed and non-blank |
| ApiServer.AsStrIdempotent | anti_piracy_system/api_server.py:76-82 | passing a result through _as_str again leaves it unchanged |
| ApiServer.Kept | anti_piracy_system/api_server.py:91-92 | one item contributes at most one trimmed, non-blank text |
| ApiServer.Cleaned | anti_piracy_system/api_server.py:88-92 | the cleaned list holds only trimmed, non-blank texts and is no longer than the raw list |
| ApiServer.Candidates | anti_piracy_system/api_server.py:94-96 | the list to de-duplicate is never empty |
| ApiServer.Unique | anti_piracy_system/api_server.py:98-105 | de-duplicating never lengthens the list |
| ApiServer.FirstIndex | anti_piracy_system/api_server.py:101-104 | the position of the first occurrence |
| ApiServer.UniqueMembers | anti_piracy_system/api_server.py:98-105 | de-duplicating keeps exactly the elements there were |
| ApiServer.UniqueDistinct | anti_piracy_system/api_server.py:98-105 | the de-duplicated list has no repetition |
| ApiServer.UniqueOrder | anti_piracy_system/api_server.py:98-105 | the de-duplicated list follows the order of first occurrence |
| ApiServer.UniqueSpec | anti_piracy_system/api_server.py:98-105 | each element exactly once, in order of first occurrence |
| ApiServer.CollectKeywords | anti_piracy_system/api_server.py:88-92 | the loop builds exactly the cleaned list |
| ApiServer.Dedup | anti_piracy_system/api_server.py:98-105 | the seen/deduped loop builds exactly the de-duplicated list |
| ApiServer.ParseKeywords | anti_piracy_system/api_server.py:85-105 | a non-empty list without repetition, holding exactly the candidates, in the order they first occur; every element is trimmed and non-blank when the fallback is and a non-string keyword renders so |
| ApiServer.ParseDeviceId | anti_piracy_system/api_server.py:108-117 | an id is trimmed and non-blank; a string gives its trimmed text or nothing; anything but a string or list gives nothing |
| ApiServer.DeviceIdRoundTrip | anti_piracy_system/api_server.py:108-117 | an id sent alone or as the head of a list reads back unchanged, and a list whose head is not a string gives nothing whatever follows |
| ApiServer.ModelOf | anti_piracy_system/api_server.py:155-159 | no model exactly when no token starts with model: |
| ApiServer.ModelOfFirst | anti_piracy_system/api_server.py:156-159 | the first token with the tag decides, and the model is the text after the tag |
| ApiServer.FindModel | anti_piracy_system/api_server.py:155-159 | the loop finds exactly ModelOf of the tokens |
| ApiServer.DeviceOf | anti_piracy_system/api_server.py:147-167 | a line with fewer than two tokens gives no device; otherwise id and state are the first two tokens, and the device is online iff the state is device |
| ApiServer.Parsed | anti_piracy_system/api_server.py:145-168 | at most one device per line, each online iff its state is device, with single-token id and state |
| ApiServer.Lines | anti_piracy_system/api_server.py:141 | splitting the stripped output always gives at least one line |
| ApiServer.BlankHasNoWords | anti_piracy_system/api_server.py:147-148 | a blank line has no token |
| ApiServer.ParseLine | anti_piracy_system/api_server.py:146-168 | one turn of the loop reads exactly DeviceOf of the line |
| ApiServer.ParseListing | anti_piracy_system/api_server.py:145-168 | the loop over the lines after the header collects exactly Parsed of them |
| ApiServer.ListAdbDevices | anti_piracy_system/api_server.py:120-170 | a run gives its parsed devices and no error; a missing adb, a timeout and any other failure each give no devices and their own error text |
| ApiServer.ParsedLines | anti_piracy_system/api_server.py:146-168 | each later line adds exactly what DeviceOf reads from it, and a blank line adds nothing |
| ApiServer.ParsedFromLines | anti_piracy_system/api_server.py:146-168 | every device comes from a line with at least two tokens |
| ApiServer.LogType | anti_piracy_system/api_server.py:342-348 | the log type is action, performance or info |
| ApiServer.LogTypeOrder | anti_piracy_system/api_server.py:342-348 | an action marker beats a problem marker, which beats a success marker; a message with none is info |
| ApiServer.LogTypeActionSticks | anti_piracy_system/api_server.py:343-344 | a message that is an action by its first markers stays one whatever is appended |
| ApiServer.LogTypeError | anti_piracy_system/api_server.py:345-346 | an error line is a performance entry unless it also carries an action marker |
| ApiServer.StatusText | anti_piracy_system/api_server.py:363 | stopping iff running with a stop requested, running iff running without one, idle iff not running |
| TaskManagement.AppendSpec | backend/task_manager.py:52-56 | the log list never exceeds 1000 entries and the new entry is always last; below the cap earlier entries stay, and crossing it keeps exactly the last 500 |
| TaskManagement.AddedAllBounds | backend/task_manager.py:42-62 | every add_log queues its entry, so the queue grows by one per call and the clock is read once per call, while the list stays within the cap |
| TaskManagement.IdsRepeatAfterCap | backend/task_manager.py:45-56 | entry ids are numbered by the list length, so after the cut three more calls leave a list whose first and last entries share an id |
| TaskManagement.LogsSince | backend/task_manager.py:64-69 | nothing from since_id on; otherwise logs[since_id:], with Python's meaning for a negative since_id |
| TaskManagement.LogsSinceIncremental | backend/task_manager.py:64-69 | a client that has seen n entries and asks from n gets exactly the entries appended since, and asking from 0 gives everything |
| TaskManagement.TaskLog.constructor | backend/task_manager.py:35-40 | an empty log list, an empty queue and no clock reading yet |
| TaskManagement.TaskLog.AddLog | backend/task_manager.py:42-62 | the state becomes Added of the old state: the entry gets the id task_id plus the old list length, and below the cap it is appended to the old list |
| TaskManagement.TaskLog.GetLogs | backend/task_manager.py:64-69 | the entries are LogsSince of the list |
| TaskManagement.TaskLog.GetNewLogs | backend/task_manager.py:71-80 | the whole queue is returned oldest first and the queue is left empty, the list untouched |
| TaskManagement.SimulatedCountsBounds | backend/task_manager.py:133-138 | reported ≤ piracy ≤ checked ≤ min(max_items, 10), nothing reported in test mode, and reported equals piracy otherwise |
| TaskManagement.SimLinesCount | backend/task_manager.py:127-131 | each simulated item is logged once, and one item in three adds a warning |
| TaskManagement.PatrolTask.constructor | backend/task_manager.py:86-100 | a pending task with the given parameters, no times, result or error, not yet launched, with a new log manager |
| TaskManagement.PatrolTask.Start | backend/task_manager.py:102-108 | the run is launched only from pending; nothing else changes |
| TaskManagement.PatrolTask.Begin | backend/task_manager.py:112-113 | running since the given time, nothing else changes |
| TaskManagement.PatrolTask.Simulate | backend/task_manager.py:127-131 | the log manager receives exactly the simulated check lines |
| TaskManagement.PatrolTask.Log | backend/task_manager.py:42-62 | one line more is logged on top of what was logged since the start |
| TaskManagement.PatrolTask.SimulatedRun | backend/task_manager.py:119-140 | the simulation logs its introduction, the check lines and the completion line |
| TaskManagement.PatrolTask.SimulatedBody | backend/task_manager.py:119-197 | the simulation's lines are logged and the task is completed with the simulated counts |
| TaskManagement.PatrolTask.AgentBody | backend/task_manager.py:142-204 | completed with the agent's three counts when it returns, failed with its error text when it raises, each with its own lines |
| TaskManagement.PatrolTask.Body | backend/task_manager.py:115-204 | the body's lines are logged; completed iff the run succeeds, with its counts |
| TaskManagement.PatrolTask.Finish | backend/task_manager.py:115-209 | completed with the counts or failed with the error, and in every case the end time is set and the duration line logged |
| TaskManagement.PatrolTask.RunTask | backend/task_manager.py:110-209 | the task ends completed or failed: completed exactly when the run succeeds, with its counts; failed with the error and the old result; both times are set; the log receives exactly RunLines |
| TaskManagement.AddedAllAppend | backend/task_manager.py:42-62 | logging one list and then another is logging their concatenation |
| TaskManagement.TaskIdsDiffer | backend/task_manager.py:233 | task ids made at different table sizes differ, whatever the clock read |
| TaskManagement.NextIdFresh | backend/task_manager.py:231-244 | the table has as many entries as ids were made, and the next id is one no stored task holds |
| TaskManagement.TaskManager.constructor | backend/task_manager.py:227-229 | an empty task table |
| TaskManagement.TaskManager.CreateTask | backend/task_manager.py:231-249 | the new id is patrol_stamp_size and was not in the table; the table grows by exactly that fresh, pending, launched task with the given parameters |
| TaskManagement.TaskManager.GetTask | backend/task_manager.py:251-254 | the task stored under the id, or none exactly when the id is unknown |
| TaskManagement.TaskManager.GetTaskLogs | backend/task_manager.py:261-266 | no entries for an unknown task, otherwise LogsSince of that task's list |
| TaskManagement.TaskManager.GetNewTaskLogs | backend/task_manager.py:268-273 | no entries for an unknown task, otherwise that task's whole queue, which is left empty with its list untouched |
| PatrolRouter.StatusOf | backend/api/routers/patrol.py:14-19 | a status read from a text has that text as its value |
| PatrolRouter.StatusRoundTrip | backend/api/routers/patrol.py:14-19 | every status reads back from its value, and no two statuses share one |
| PatrolRouter.ParseParams | backend/api/routers/patrol.py:22-29 | accepted iff max_items is absent or within 1..100; accepted parameters are valid, keep the fields sent and take the defaults 10, True, None and adb; a refusal names the bound that was crossed |
| PatrolRouter.ParamsRoundTrip | backend/api/routers/patrol.py:22-29 | valid parameters sent in full are accepted unchanged, and invalid ones are refused |
| PatrolRouter.CancelOnce | backend/api/routers/patrol.py:104-118 | a cancel succeeds iff the task is not finished, is refused with the 400 error otherwise, touches only the status, the completion time and the message, and leaves the task finished so a second cancel is refused |
| PatrolRouter.CompleteAfterCancel | backend/api/routers/patrol.py:123-134 | completing does not look at the status: a task cancelled during its run ends completed at the later time and keeps the cancel message |
| PatrolRouter.RunOutcomeSpec | backend/api/routers/patrol.py:121-141 | a run ends completed with its result iff nothing was raised, failed with the message otherwise; either way it has started and ended at progress 1.0 and keeps the id, the parameters and the creation time |
| PatrolRouter.SimDetails | backend/api/routers/patrol.py:165-174 | one detail per item |
| PatrolRouter.SimResultSpec | backend/api/routers/patrol.py:155-176 | one detail per item titled by its 1-based number; nothing reported in test mode, in the count or in any detail; counts drawn within max_items // 2 and max_items // 3 stay within the number checked |
| PatrolRouter.SimDetailsAt | backend/api/routers/patrol.py:165-174 | the detail at position i is built from the draw for item i |
| PatrolRouter.ReportedMayExceedPiracy | backend/api/routers/patrol.py:158-159 | the two counts are drawn independently, so more items can be counted reported than pirated |
| PatrolRouter.BuildResult | backend/api/routers/patrol.py:156-174 | the loop builds exactly SimResult of the draws |
| PatrolRouter.Replace | backend/api/routers/patrol.py:153 | replacing a stored record by a sound one under the same id keeps the table sound |
| PatrolRouter.ValuesAll | backend/api/routers/patrol.py:99 | every key in the order gives one value, the record stored under it |
| PatrolRouter.ValuesOfTable | backend/api/routers/patrol.py:99 | in a sound table the values are the stored records, one per key |
| PatrolRouter.OutsidePrefix | backend/api/routers/patrol.py:101-102 | a record of a newest-first list that is not among its first b is no newer than any of them |
| PatrolRouter.NewestPrefix | backend/api/routers/patrol.py:99-102 | the sorted and cut list has as many records as the slice bound, newest first, all taken from the values, and none left out is newer than one kept |
| PatrolRouter.Router.constructor | backend/api/routers/patrol.py:64 | an empty task table |
| PatrolRouter.Router.StartPatrol | backend/api/routers/patrol.py:66-87 | a pending task with progress 0, no result and no start, created now and stored under the drawn id; the rest of the table is unchanged |
| PatrolRouter.Router.GetTaskStatus | backend/api/routers/patrol.py:89-94 | the stored record exactly when the id is known, the 404 error otherwise |
| PatrolRouter.Router.GetTaskHistory | backend/api/routers/patrol.py:96-102 | min(limit, n) records for a non-negative limit, newest first, each a stored record, and no stored record left out is newer than one returned |
| PatrolRouter.Router.CancelTask | backend/api/routers/patrol.py:104-118 | 404 and no change for an unknown id; 400 and no change for a finished task; otherwise the task becomes CancelOf of itself, with the cancel message |
| PatrolRouter.Router.RunBegin | backend/api/routers/patrol.py:124-126 | an unknown id changes nothing; otherwise the task is running since now |
| PatrolRouter.Router.SimulateProgress | backend/api/routers/patrol.py:148-153 | the values published are ten, each in (0, 1], strictly increasing and ending at 1.0; only the task's progress changes |
| PatrolRouter.Router.RecordResult | backend/api/routers/patrol.py:176 | only the task's result changes, to the one built |
| PatrolRouter.Router.RunComplete | backend/api/routers/patrol.py:132-134 | the task becomes completed at progress 1.0 and completed now, whatever its status was |
| PatrolRouter.Router.RunFail | backend/api/routers/patrol.py:136-141 | a stored task fails with the message and the time; an unknown id changes nothing |
| PatrolRouter.Router.RunStarting | backend/api/routers/patrol.py:124-153 | the task is running since now and has gone through the ten progress updates |
| PatrolRouter.Router.RunEnding | backend/api/routers/patrol.py:130-141 | the task ends as RunEnd says: failed with the raised message, or given the result and completed |
| PatrolRouter.Router.RunPatrolTask | backend/api/routers/patrol.py:121-176 | an unknown id changes nothing; otherwise the task ends as RunOutcome says, and no other task changes |

## Left out

- **Files.** The catalog and the ledger are not loaded from or saved to JSON, and `export_to_file` is left out. Each constructor receives the table that loading produced, because file I/O has no place in the proofs.
- **Evidence folders and screenshots.** The evidence folders, `report.json` writing, screenshots and gallery pushes are not modelled as file operations: `get_shop_dir` does not create the folder, `os.rename` and the gallery copies are left out, and which temporary screenshots exist (`os.path.exists`) is the `captured` parameter of the run. The evidence table records the paths and facts that a run saves, `save_report` returns the contents it would write, and the device's screen function does not depend on screenshots.
- **Device commands and timing.** The adb commands are members of the device's command history. `time.sleep` delays and the `delay` arguments are left out. The screen size is fixed when the device is made, because `get_screen_size` reads the same device every time.
- **UI dumps.** A UI dump is given as parsed node records, not as XML text, with uiautomator's attribute order (class before `clickable`, `focusable`, `long-clickable` and `bounds`). The first two patterns of `find_input_elements` cover the class before and after the bounds, and are modelled as one lookup of the node's class. Its third pattern, `focusable="true"` followed by `clickable="true"`, can meet the second only inside `long-clickable="true"` in that order, so it is modelled as a focusable, long-clickable node (`AdbDevice.FocusLongClick`). A dump with another attribute order is not modelled.
- **The language-model agent.** The agent is an oracle. `PhoneAgent.run` raises or not as a function of the tasks sent before, and `_parse_model_response` (JSON decoding of the model's answer) is a parameter giving the parsed dictionary, or none when it is not one. Its values are null, booleans, numbers, texts or containers, each with Python's truth value; a number or container carries its `str()` text, which the parser supplies. Prompts are the `Task` and `Prompt` datatypes, not their texts.
- **Clock readings.** `datetime.now()` readings (report ids, timestamps, task ids, log timestamps) are parameters or a clock function. In `add_log` the two readings of one entry are modelled as one reading, and so are the `start_time` and `end_time` readings of a simulated result (`PatrolRouter.SimResult`, backend/api/routers/patrol.py:160-161).
- **Random draws and uuid4.** The patrol router's random draws and `uuid4` are parameters (`SimDraw`, the two counts, the task id). Nothing is assumed about them beyond the bounds `randint` gives.
- **Floating point.** Floats are `real`, so IEEE rounding, inf and nan are left out (`int(inf)` raising `OverflowError` included). Python's float formatting (`:.0f`, `:.0%`, `:.1f`, `str()` of a float, list or dict) is given by the caller (`Formats`, `fmt0`, `render`, the duration text), because its digits play no part in any decision.
- **Unicode.** `str.lower()` changes ASCII letters only, and `\d` and `int()` accept ASCII digits only. `\w` and `\s` follow the tables written out in text.dfy. Other scripts' case mappings and digits are left out.
- **Concurrency.** The websocket and aiohttp servers, threads, locks, queues, the subprocess call of `api_server.py` and the stdout redirection of `task_manager.py` are left out. The result of `adb devices -l` is the `AdbRun` parameter.
- **Redirected agent output.** The lines `LogRedirector` would add to a task's log while the agent runs are not modelled.
- **Unreachable branches.** The `adb 输出为空` branch of `list_adb_devices` cannot be taken, because splitting always gives at least one line. The `queue.Full` branch of `add_log` cannot be taken either, because the queue is unbounded. Neither is modelled.
- **Unreachable handlers.** In the model, steps never raise outside `agent.run`, so the outer `except` of `execute_report` and of `_extract_product_info` is unreachable and not modelled. `_save_screenshot` only builds a path (the capture is a source TODO), so its `except` is unreachable too.
- **Displays and printed texts.** The `_generate_patrol_report` text, `get_patrol_statistics`, `PatrolTask.get_status`, `TaskManager.get_task_status` and the console output are left out, because they format state without changing or deciding anything.
- **Agent sessions.** `AntiPiracyAgent.Agent.StartPatrol`'s `start_time` is not modelled, and `add_genuine_product` is left out: it forwards to `ProductDatabase.AddProduct`, which is modelled.
- AntiPiracyAgent.InfoFromFields: a true `title`, `shop_name`, `description` or `ocr_text` value that is not a text (a number, `true`, a list) is stored as its `str()` text. The program stores the object itself. The detector then raises TypeError on a non-text OCR value (`kw in ocr_text`, piracy_detector.py:201) and AttributeError on a non-text description (`.lower()`, piracy_detector.py:316), and a list OCR value is tested for membership, not substring. Nothing in `_detect_piracy` catches these errors, so `start_patrol` ends the whole patrol at anti_piracy_agent.py:170. The model instead goes on to the remaining items; this raising path is not modelled.
- AntiPiracyAgent.TextOf: a true `description` or `ocr_text` value that is not a text becomes its `str()` text, where the program keeps the object and the detector raises on it; see the AntiPiracyAgent.InfoFromFields line above.
- DetectionRun.RunDetection: when `extract_single_product` raises, the model assumes it raised before sending any command and before saving any evidence for that product. The commands a partly finished product would leave are not modelled, because the exception point is not observable.
- TaskManagement.PatrolTask.RunTask: the agent's outcome is a parameter (`AgentOutcome`), not a call into the `AntiPiracyAgent` model. The two are joined only by the three counts the task records.
- ProductDatabase.ProductDatabase.AddProduct: on a stored id the program sets `updated_at` on the caller's own object and the table then holds that same object. The model stores a refreshed copy, so the aliasing between the caller's record and the table is not modelled.
- PatrolRouter.Router.StartPatrol: the response and the table share one task object in the program. The model keeps records as values and routes every later update through the table, so the aliasing is not modelled, and validation errors of pydantic other than the `max_items` bounds are not modelled.
- PatrolRouter.Router.RunPatrolTask: a background run interleaved with a cancel is modelled through the separate step methods (`RunBegin`, `SimulateProgress`, `RecordResult`, `RunComplete`, `RunFail`), not through a scheduler. An exception is modelled only where the result is built.
- PatrolRouter.Router.SimulateProgress: the progress values `run_patrol_task` publishes one by one are returned as a ghost sequence.
- PatrolRouter.Router.GetTaskHistory: the relative order of tasks with equal `created_at` is not stated. It is the same stable insertion order, but no lemma says so.
- UploadFlow.UploadCount: stated for a non-negative `max_images` only. Every caller passes 3 or the default 2. A negative value is modelled with Python's slicing but not stated.
- ApiServer.ParseKeywords: every element is stated trimmed and non-blank only when the fallback keyword is, and when `str()` of a non-string keyword is. A blank fallback gives `[""]`, as the code does.
