# Postify core, modelled in Dafny

Postify generates a holiday greeting picture for the day, brands it, and sends it over a
WhatsApp relay. It has three audiences:

- a single phone (`/generate-post`);
- every registered user, each with their own logo and contact footer (`/distribute-holiday-post` and its Playwright twin);
- every subscriber, each with their own overlay (`/subscriber/distribute`).

The holidays live in a CSV file and in a MongoDB `holidays` collection. A migration script
copies one into the other. Users and subscribers are MongoDB collections too.

This project models, per source file:

- **MongoDB and the serializers.**
  - A collection is a class over `map<ObjectId, Fields>` with its natural order (`mongo.dfy`).
  - `serialize_doc` and `serialize_subscriber_doc` are each modelled twice: as functions, and as methods that mutate the dictionary in place (`docs.dfy`).
- **Repositories.** The holiday, user and subscriber repositories are methods over that collection, with every error code (`holiday_repository.dfy`, `user_repository.dfy`, `subscriber_repository.dfy`).
  - The invariant that no two holidays share a date is kept by `create` and `update`.
  - `get_all` sorts by the date text.
- **Holiday lookups.**
  - The CSV first-match lookup for today (`csv_service.dfy`).
  - The `DD-MM-YYYY` key, and the two store lookups for today with their result mapping (`clock.dfy`, `holiday_service.dfy`).
  - The CSV-to-store migration with its row filter and counters (`migrate.dfy`).
- **Compositor.**
  - The layout decisions of `overlay_images`, over an image class whose content is a symbolic layer term (`raster.dfy`, `image_service.dfy`).
  - The flattening and base64 rule of `image_to_base64` (with `base64.dfy`).
  - The output shape of `process_logo`.
- **Routes.**
  - The update dictionaries and error mapping of the holiday and user routes (`holiday_routes.dfy`, `user_routes.dfy`).
  - The single-post pipeline and its synchronous user fan-out (`posts.dfy`).
  - The two job-based fan-outs (`subscriber_routes.dfy`, `playwright_routes.dfy`). They share some parts (`delivery.dfy`):
    - the job records and their registries (`jobs.dfy`);
    - per-recipient artifacts and outcomes;
    - the footers;
    - the 30–300 second pacing rule.

A background task is modelled as a method run to completion. Each recipient's turn reports
one `Turn` value. It records the pause chosen before the send (if any). In the two
background jobs it also records the counters a poller could see at the two suspension points,
the sleep and the send. The synchronous route has no job and records no counters. The counter invariant
`processed == successful + failed == |results|` is `Job.Valid()`, kept by `Job.Record`.
`Paced` states what each turn saw.

## Model

| member | source | states |
|---|---|---|
| Clock.DateKey | services/holiday_service.py:16 | today's key is ten characters, two-digit day and month with '-' at positions 2 and 5 |
| Clock.DateKeyRoundTrip | services/holiday_service.py:38 | the key parses back to the same date, so each date has exactly one key |
| Clock.DateKeyOfParsed | services/csv_service.py:19 | a well-formed `DD-MM-YYYY` key is the key of the date it parses to |
| Clock.DateKeyInjective | services/csv_service.py:13 | two dates with the same key are the same date |
| Clock.IsoFormat | database/holiday_repository.py:22-23 | `isoformat()` is 19 characters, or 26 with microseconds |
| Docs.UpperValue | routes/playwright_posts.py:146 | `.upper()` succeeds exactly on text and bytes, upper-cases text, and is an AttributeError otherwise |
| Docs.MoveId | database/connection.py:42-43 | `id` becomes `str(_id)`, `_id` is removed, every other key is kept; a missing `_id` is a KeyError |
| Docs.SerializeDoc | database/connection.py:38-46 | falsy doc gives None; id moved; a bytes logo becomes its base64 text; other keys and non-bytes logos unchanged |
| Docs.SerializeSubscriberDoc | database/connection.py:60-66 | falsy doc gives None; id moved; every other key, `overlay` included, untouched |
| Docs.SerializeDocInPlace | database/connection.py:38-46 | mutating the passed dictionary ends in exactly the state `SerializeDoc` describes |
| Docs.SerializeSubscriberDocInPlace | database/connection.py:60-66 | mutating the passed dictionary ends in exactly the state `SerializeSubscriberDoc` describes |
| Docs.MoveIdRestores | database/connection.py:42-43 | the moved id text parses back to the stored ObjectId, so the move loses nothing |
| Docs.SerializeDocRestores | database/connection.py:38-46 | serializing loses nothing: the stored document can be rebuilt from the output |
| Docs.SerializeSubscriberDocRestores | database/connection.py:60-66 | the stored subscriber can be rebuilt from the serialized one |
| HolidayRepository.SerializeHolidayDoc | database/holiday_repository.py:16-24 | falsy doc gives None; id moved; a datetime `created_at` becomes its ISO text; other keys unchanged |
| HolidayRepository.SerializeHolidayDocInPlace | database/holiday_repository.py:16-24 | the in-place serializer ends in the state `SerializeHolidayDoc` describes |
| HolidayRepository.PatchKeepsUniqueDates | database/holiday_repository.py:84-94 | a `$set` whose date no other holiday holds keeps dates unique |
| HolidayRepository.Create | database/holiday_repository.py:31-48 | a taken date is a 400 with the store unchanged; otherwise exactly one new holiday with the given fields and a fresh id, dates stay unique |
| HolidayRepository.InsertByDateSorted | database/holiday_repository.py:53 | inserting into a date-sorted list keeps it sorted |
| HolidayRepository.InsertByDatePermutes | database/holiday_repository.py:53 | insertion adds exactly the one document |
| HolidayRepository.SortByDateSorted | database/holiday_repository.py:53 | the sort is ascending by date text and a permutation of its input |
| HolidayRepository.GetAll | database/holiday_repository.py:50-57 | one serialized holiday per stored one, in the sorted cursor's order |
| HolidayRepository.GetAllAscending | database/holiday_repository.py:53-57 | the listed holidays are ascending by date text |
| HolidayRepository.GetById | database/holiday_repository.py:59-70 | the serialized holiday, or 404 "Holiday not found" |
| HolidayRepository.GetByDate | database/holiday_repository.py:72-76 | None exactly when no holiday has the date, otherwise the serialized match |
| HolidayRepository.Update | database/holiday_repository.py:78-106 | empty patch 400; another holiday's date 400; unknown id 404; otherwise only the supplied keys change and dates stay unique |
| HolidayRepository.Delete | database/holiday_repository.py:108-119 | unknown id 404 with the store unchanged; otherwise exactly that holiday is removed, the others keeping their natural order |
| HolidayRepository.DeleteAll | database/holiday_repository.py:121-128 | the store is emptied and the message counts what was there |
| UserRepository.Create | database/user_repository.py:13-25 | exactly one new user with phone, mail, website, logo, logo_filename and created_at, under a fresh id |
| UserRepository.GetAll | database/user_repository.py:27-35 | one entry per user in natural order, serialized, without `logo` unless asked for |
| UserRepository.GetAllProjection | database/user_repository.py:30 | `logo` is listed exactly when `include_logo` is set and the user has one; every other field is kept |
| UserRepository.GetById | database/user_repository.py:37-46 | the serialized user; a missing id is a 400 because the 404 is caught by the generic handler |
| UserRepository.GetAllRaw | database/user_repository.py:48-55 | every stored document, as stored, in natural order |
| UserRepository.Update | database/user_repository.py:57-72 | empty patch 400; unmatched id 404; otherwise only the supplied keys change |
| UserRepository.Delete | database/user_repository.py:74-85 | unmatched id 404 with the store unchanged; otherwise exactly that user is removed, the others keeping their natural order |
| SubscriberRepository.Create | database/subscriber_repository.py:13-23 | exactly one new subscriber with name, phone, overlay and created_at, under a fresh id |
| SubscriberRepository.GetAll | database/subscriber_repository.py:25-33 | one serialized entry per subscriber, in natural order, without `overlay` |
| SubscriberRepository.GetAllProjection | database/subscriber_repository.py:28 | the projection drops `overlay` and keeps every other field's value |
| SubscriberRepository.GetById | database/subscriber_repository.py:35-44 | the serialized subscriber; a missing id is a 400, not a 404 |
| SubscriberRepository.GetAllRaw | database/subscriber_repository.py:46-53 | every stored document, as stored, in natural order |
| SubscriberRepository.Update | database/subscriber_repository.py:55-70 | empty patch 400; unmatched id 404; otherwise only the supplied keys change |
| SubscriberRepository.Delete | database/subscriber_repository.py:72-83 | unmatched id 404 with the store unchanged; otherwise exactly that subscriber is removed, the others keeping their natural order |
| Text.StripIsTrimmedSlice | services/csv_service.py:19-20 | `strip()` returns the slice left once the whitespace at both ends is removed, and that slice neither starts nor ends with whitespace |
| Text.StripIdempotent | migrate_holidays.py:21-23 | stripping twice is stripping once |
| CsvService.StrippedField | services/csv_service.py:19-20 | `row[key].strip()`: a missing column is a KeyError, a short line's None an AttributeError |
| CsvService.SearchFirstMatch | services/csv_service.py:18-20 | after rows that are read and do not match, the first matching row decides the answer |
| CsvService.SearchStopsAtMatch | services/csv_service.py:18-20 | rows after the first match are never inspected: replacing them changes nothing |
| CsvService.SearchNone | services/csv_service.py:18-28 | the answer is None exactly when every row was read and none matched |
| CsvService.ParseCsvForToday | services/csv_service.py:11-28 | a missing file is 500 "CSV file not found: holidays.csv", any reading error a 500 with its text, otherwise the search for today's key |
| HolidayService.HolidayForToday | services/holiday_service.py:11-30 | the found holiday's prompt; None for no match or an HTTPException; 500 for any other exception |
| HolidayService.HolidayWithDescriptionForToday | services/holiday_service.py:33-54 | exactly `{prompt, description}` of the match, or None, with the same error mapping |
| HolidayService.GetHolidayForToday | services/holiday_service.py:16-22 | the store is asked for today's `DD-MM-YYYY` key: the prompt of the holiday dated today, or None when no holiday has that date |
| HolidayService.GetHolidayWithDescriptionForToday | services/holiday_service.py:38-47 | exactly `{prompt, description}` of the holiday dated today, or None when no holiday has that date |
| HolidayService.LookupOfStoredHoliday | services/holiday_service.py:19-21 | for a stored holiday the lookups answer with its stored prompt and description |
| Migration.Cell | migrate_holidays.py:21-23 | `row.get(key, "").strip()`, a short line's None being an AttributeError |
| Migration.Candidate | migrate_holidays.py:21-31 | a row is kept iff stripped date and prompt are non-empty; values stored stripped; an empty description becomes None |
| Migration.CollectedFiltered | migrate_holidays.py:25-30 | every collected entry has a non-empty, already stripped date and prompt |
| Migration.CollectedStopsAtFailure | migrate_holidays.py:17-39 | a reading error ends the read: nothing after it matters |
| Migration.ReadHolidays | migrate_holidays.py:15-39 | the read loop yields exactly the filtered entries or the printed failure message |
| Migration.Migrate | migrate_holidays.py:15-60 | a read failure returns before the store is cleared; otherwise the store is cleared, successes + failures == entries, each stored holiday is the first entry of its date, and every entry's date is stored |
| ImageService.OverlayLayer | services/image_service.py:47-49 | the overlay is RGBA at 1024×1024 and was resized iff its loaded size differed |
| ImageService.LogoChoice | services/image_service.py:52-61 | truthy `logo_data` is opened, otherwise the default logo; a missing default gives no logo and no error |
| ImageService.FooterFont | services/image_service.py:70-74 | the TrueType font at size 24 when it loads, otherwise the default font |
| ImageService.FooterCentred | services/image_service.py:77-81 | the footer is centred to within one pixel and its bottom sits 40 pixels above the edge |
| ImageService.OverlayShape | services/image_service.py:33-86 | compositing succeeds iff overlay and logo load and sizes match; the result is 1024×1024 RGBA with the footer drawn last in white at the computed spot |
| ImageService.OverlayLogoLayer | services/image_service.py:63-65 | a present logo is resized to 120×120 and pasted at (20, 20) with its own mask; otherwise nothing is pasted |
| ImageService.Compose | services/image_service.py:40-50 | the argument is never changed; the fresh composite is the RGBA picture with the overlay layer over it, or the compositing error |
| ImageService.OverlayImages | services/image_service.py:33-86 | the input image is never mutated; the fresh result is the one `Overlay` describes |
| ImageService.DecorateInPlace | services/image_service.py:52-86 | a logo that cannot be read fails before anything is drawn; otherwise the composite is drawn on in place, ending as `Decorate` describes |
| ImageService.Flatten | services/image_service.py:92-95 | RGBA becomes RGB of the same size pasted on white; other modes are kept |
| Base64.DecodeEncode | services/image_service.py:100 | decoding the base64 text gives back exactly the encoded bytes |
| ImageService.PayloadDecodes | services/image_service.py:89-100 | the base64 text decodes to the PNG of the flattened image |
| ImageService.ImageToBase64 | services/image_service.py:89-100 | the method's text is exactly `Payload` of the image |
| ImageService.LogoImage | services/image_service.py:22-27 | a processed logo is always 150×150 RGBA |
| ImageService.ProcessLogo | services/image_service.py:22-30 | succeeds iff the bytes open, and returns the PNG of the normalised logo |
| HolidayRoutes.CreateReply | routes/holidays.py:32-38 | an HTTPException passes through; any other failure is 500 "Failed to create holiday: …" |
| HolidayRoutes.CreateHoliday | routes/holidays.py:19-38 | a duplicate date reaches the client as the 400; otherwise exactly one holiday is added and its id returned |
| HolidayRoutes.GetHolidayByDate | routes/holidays.py:76-84 | 404 exactly when no holiday has that date |
| HolidayRoutes.UpdateFields | routes/holidays.py:96-102 | a field is in the update iff it is not None, an empty string included |
| HolidayRoutes.UpdateFieldsEmpty | routes/holidays.py:104-108 | the update is empty iff no field was provided |
| HolidayRoutes.UpdateData | routes/holidays.py:96-102 | building the dictionary step by step gives `UpdateFields` |
| HolidayRoutes.UpdateHoliday | routes/holidays.py:93-110 | nothing provided is a 400 before the repository; otherwise the repository's update on exactly the provided fields |
| UserRoutes.CreateUser | routes/users.py:14-50 | no MONGO_URI is 500 before anything is read; a bad logo is 400; otherwise one user stored with the processed logo |
| UserRoutes.UpdateFields | routes/users.py:74-90 | contact fields iff truthy; a logo adds both processed `logo` and `logo_filename`; a bad logo is 400 |
| UserRoutes.NothingGiven | routes/users.py:74-80 | empty or missing contact fields and no logo leave the update empty |
| UserRoutes.UpdateData | routes/users.py:74-90 | the step-by-step dictionary is `UpdateFields` |
| UserRoutes.UpdateUser | routes/users.py:65-92 | a bad logo fails before the store is touched; otherwise the repository's update on exactly that dictionary |
| Jobs.Successes | routes/subscribers.py:210-225 | the delivered outcomes never outnumber the outcomes |
| Jobs.SuccessesAppend | routes/subscribers.py:216 | appending an outcome adds one success exactly when it is a delivery |
| Jobs.Job.Start | routes/subscribers.py:141-150 | a new record is `running` with all counters 0, no results and the given total |
| Jobs.Job.Append | routes/subscribers.py:210-225 | one result appended, and exactly one of `successful` and `failed` raised, by whether it was a delivery |
| Jobs.Job.Advance | routes/subscribers.py:227 | `processed` goes up by one and nothing else moves |
| Jobs.Job.Record | routes/subscribers.py:210-227 | appending an outcome and counting it keeps `processed == successful + failed == |results| <= total` |
| Jobs.Job.Complete | routes/subscribers.py:229-230 | status `completed` and `completed_at` set; nothing else moves |
| Jobs.Job.Fail | routes/subscribers.py:180-187 | status `failed` with `error` set; counters and results untouched |
| Jobs.Registry.Register | routes/subscribers.py:141 | the registry gains exactly the new id |
| Jobs.Registry.Lookup | routes/subscribers.py:239-242 | an unknown id is 404 "Job not found"; a known id gives the live record |
| Delivery.BaseImage | routes/playwright_posts.py:102-109 | the structured output's failure propagates; an empty prompt is 500 with nothing generated; otherwise the generator's picture and the caption |
| Delivery.EmptyPromptGeneratesNothing | routes/posts.py:47-48 | with an empty prompt the generator is never consulted |
| Delivery.RecipientFooter | routes/playwright_posts.py:146 | the per-recipient footer is built exactly when mail and website have `upper`; otherwise an AttributeError |
| Delivery.PostFooter | routes/posts.py:53 | the single-post footer starts with "+91 " and has the length of its parts |
| Delivery.RecipientFooterIsPostFooter | routes/playwright_posts.py:63 | for text fields the recipient footer is the single-post footer without "+91 ", missing fields as "" |
| Delivery.Attempt | routes/subscribers.py:190-225 | an outcome is delivered iff the artifact built and the send succeeded; otherwise it records the exception's text |
| Delivery.ChooseDelay | routes/subscribers.py:204 | the pause is in [30, 300], both ends included |
| Delivery.BuildSubscriberArtifact | routes/subscribers.py:193-200 | decode, composite and encode give `SubscriberArtifact` |
| Delivery.BuildUserArtifact | routes/playwright_posts.py:146-150 | footer, overlay and encode give `UserArtifact`, and the shared base picture is left intact |
| Delivery.Deliver | routes/subscribers.py:202-225 | the outcome is `Attempt`; pause only before sends at index > 0 and never without an artifact; in a background job, counters balanced while waiting, and none recorded outside one |
| Delivery.SubscriberOutcomes | routes/subscribers.py:190-225 | a subscriber run has exactly one outcome per subscriber |
| Delivery.SubscriberOutcomesAt | routes/subscribers.py:190-225 | the i-th outcome of a subscriber run is the outcome of the i-th subscriber |
| Delivery.UserOutcomes | routes/playwright_posts.py:145-173 | a user run has exactly one outcome per user |
| Delivery.UserOutcomesAt | routes/playwright_posts.py:145-173 | the i-th outcome of a user run is the outcome of the i-th user |
| Delivery.SubscriberArtifactsAt | routes/subscribers.py:192-200 | the i-th artifact of a subscriber run is the one built for the i-th subscriber |
| Delivery.UserArtifactsAt | routes/playwright_posts.py:146-150 | the i-th artifact of a user run is the one built for the i-th user |
| Delivery.SubscriberTurn | routes/subscribers.py:190-225 | one subscriber's turn: the run's outcome at that index, and the pacing rule given whether the artifact built |
| Delivery.UserTurn | routes/playwright_posts.py:145-173 | one user's turn: the run's outcome at that index, the pacing rule, base picture intact |
| SubscriberRoutes.DistributeToSubscribers | routes/subscribers.py:121-166 | no holiday or no subscribers: error reply and no job; otherwise a fresh `running` job for all subscribers, registered before any generation |
| SubscriberRoutes.Start | routes/subscribers.py:173-188 | an empty prompt gives "Failed to generate image prompt"; an exception gives "Image generation failed: …"; otherwise the base picture `BaseImage` describes |
| SubscriberRoutes.ProcessSubscriberDistribution | routes/subscribers.py:169-231 | a failed start marks the job `failed` with nothing processed or recorded; otherwise every subscriber gets one outcome in order and the job ends `completed` with all processed |
| SubscriberRoutes.DeliverAll | routes/subscribers.py:190-227 | the recorded results are exactly the run's outcomes, subscriber by subscriber in order; counters balanced and every subscriber processed; pacing rule per turn |
| SubscriberRoutes.GetSubscriberDistributionStatus | routes/subscribers.py:234-242 | the registry's lookup: 404 or the live record |
| Posts.Publish | routes/posts.py:42-74 | a failure before the send is the route's error; a failed send is `success = false` with the exception's text; otherwise the success message |
| Posts.EmptyPromptSendsNothing | routes/posts.py:47-48 | an empty prompt is a 500 before any picture is generated or sent |
| Posts.GeneratePost | routes/posts.py:22-74 | a given holiday is used as is; otherwise the lookup's error propagates and no match is a 404 |
| Posts.SuppliedHolidayIgnoresCalendar | routes/posts.py:34-40 | with a holiday given, the CSV answer does not matter |
| Posts.DistributeHolidayPost | routes/posts.py:77-150 | no holiday or no users: error reply, nothing sent; otherwise `completed` with total == users == results, one outcome per user in order |
| Posts.PostToUsers | routes/posts.py:96-150 | a failed generation is the route's error with nothing sent; otherwise `completed` with total == users == results and the i-th result the i-th user's outcome |
| Posts.SendToUsers | routes/posts.py:108-143 | the collected results are exactly the run's outcomes, user by user in order; pacing rule per turn with no counters recorded; base picture intact |
| PlaywrightRoutes.GeneratePostPlaywright | routes/playwright_posts.py:34-82 | a given holiday is used with no description; otherwise today's holiday and description, and no holiday is a 404 |
| PlaywrightRoutes.SuppliedHolidayIgnoresStore | routes/playwright_posts.py:42-51 | with a holiday given, the store's answer does not matter |
| PlaywrightRoutes.DistributeHolidayPostPlaywright | routes/playwright_posts.py:85-138 | no holiday, no users or failed generation: nothing registered; otherwise a fresh `running` job for all users carrying the base picture and caption |
| PlaywrightRoutes.StartPlaywrightJob | routes/playwright_posts.py:102-138 | a failed generation registers nothing; otherwise a fresh `running` job under the new id, the task carrying the base picture and caption, and the `started` reply |
| PlaywrightRoutes.ProcessDistributionPlaywright | routes/playwright_posts.py:141-178 | every user gets one outcome in order, pacing per turn, base picture never altered, job ends `completed` with all processed |
| PlaywrightRoutes.DeliverToUsers | routes/playwright_posts.py:144-175 | the recorded results are exactly the run's outcomes, user by user in order; the counter invariant holds and every user is processed |
| PlaywrightRoutes.GetDistributionStatusPlaywright | routes/playwright_posts.py:181-185 | the registry's lookup: 404 or the live record |

## Left out

- The following become parameters, or are given their own roles:
  - **Scheduling:** asynchronous scheduling, `asyncio.sleep` timing and interleaving with pollers. A background task runs to completion; what pollers of a job could see is the `seen` counters recorded at each turn's suspension points.
  - **Randomness, ids and time:** `random.randint` is a nondeterministic choice in [30, 300]. `uuid.uuid4` is a job id parameter not yet in the registry. `datetime.now()` is a date or timestamp parameter; the migration takes it as a function of the insert's index.
  - **Pixel work:** resampling, alpha blending and fonts are symbolic layer terms. The text bounding box, the image decoder and the PNG encoder are oracles in `Assets`.
  - **External services and missing code:** `generate_structured_output`, `generate_image`, `generate_image_playwright`, `send_to_whatsapp`, `base64.b64decode` of a stored overlay, and `overlay_subscriber_image` (not defined in services/image_service.py) are oracles in `Services`.
  - **Files:** file reading is a sequence of reads. A read is either a row or the error that stops the reader.
- **Left out entirely:**
  - the Playwright scripts, the subprocess wrapper and the WhatsApp client;
  - the MongoDB driver, its connection getters, ObjectId parsing and validity, and races between the duplicate check and the insert;
  - the wiring files (app.py, the `__init__` modules, routes/health.py, routes/test_post.py, models/schemas.py);
  - the subscriber create and update routes, and print output.
- `Text.Upper`: `str.upper` is modelled for ASCII letters only. Other characters are left as they are.
- The natural order of a collection is its insertion order.
- `get_all` of the holiday repository sorts by the date text, so `DD-MM-YYYY` keys are not in calendar order. The model proves the text order only.
- `HolidayRepository.Update` requires a supplied `date` to be text. The modelled route passes `date` as text; `HolidayUpdate`, the request model routes/holidays.py:6 imports, is not part of this model, so a non-text date is not modelled.
- The job records keep `total` and `recipient` in place of the source's per-route JSON keys: `total_subscribers`/`total_users` and `subscriber_id`/`user_id`.
- `UserRoutes.CreateUser`: the generic 500 for a repository exception is not modelled, because the modelled repository cannot fail on insert.
- A recipient or stored document without `_id` raises a KeyError in the source. The model requires `_id`, which every stored document has.
- `GeneratePostResponse` validation of a non-text `holiday` (the Playwright route can pass a missing prompt as None) is not modelled: the response keeps the value as is.
