# Fraud detection platform: verified model of the transaction core

This project models the core of a fraud-detection platform built from Spring
services. It covers the following parts:

- **Transaction service.** Transaction records are kept in a table keyed by
  a unique business `transactionId`. The service can read, overwrite, create
  and flag a record, and it can list flagged records and records by merchant.
- **Request validators.** The Bean Validation constraints on the create,
  update and flag payloads are modelled. This includes the dotted-quad IPv4
  grammar of the `@Pattern` regular expression.
- **Record mappers.** Two mappers convert between the entity and its DTOs.
  One is the MapStruct-generated entity/DTO copy. The other holds the
  annotation-driven mappings: a create mapping with an ignore list, and an
  in-place, null-ignoring update patch.
- **Exception handler.** It maps each exception kind to an HTTP status, a
  reason phrase (section 15 of RFC 9110), a message, the request path and
  optional field errors.
- **Card masking.** `maskCard` masks a card number.
- **Correlation-id filter.** It wraps the rest of the servlet chain in a
  put/remove bracket on the logging context (the MDC).
- **Merchant service.** It creates merchants insert-if-absent and looks them
  up by id. The merchant client's fallback record is modelled too.
- **Producer scheduler.** It cuts a seed list of create requests into
  batches and publishes every request of every batch to the transaction
  topic.

Java `null` is `Option.None`. An exception is a `Result.Failure` naming the
exception kind. The database table is a `map` field of a service class.
The clock and the UUID generator are parameters (`now`, `freshId`). Each
module follows one source class, and the modules are spread over these
files:

- `wrappers.dfy` holds the `Option` and `Result` wrappers.
- `text.dfy` holds Java's blank and trim notions.
- `ipv4.dfy` and `constraints.dfy` hold the Bean Validation constraints.
- `create_request.dfy`, `update_request.dfy` and `flag_request.dfy` hold the
  validators.
- `transaction.dfy` holds the entity and its mutable class.
- `service_mapper.dfy` and `request_mapper.dfy` hold the mappers.
- `http.dfy`, `exceptions.dfy`, `api_error.dfy` and `exception_handler.dfy`
  hold the error handling.
- `service.dfy` holds the transaction service.
- `masking.dfy` holds the card masking.
- `correlation.dfy` holds the filter.
- `merchant.dfy` and `fallback.dfy` hold the merchant side.
- `scheduler.dfy` holds the producer scheduler.

## Model

| member | source | states |
|---|---|---|
| MaskingUtil.MaskCard | fraud-common/src/main/java/com/fraud/common/util/MaskingUtil.java:6-11 | null stays null; a PAN of at most four characters is returned unchanged; a longer one becomes exactly `**** **** **** ` followed by its last four characters |
| MaskingUtil.MaskCardKeepsLastFour | fraud-common/src/main/java/com/fraud/common/util/MaskingUtil.java:8-10 | whatever the branch, the result ends in the input's last four characters |
| MaskingUtil.MaskCardIdempotent | fraud-common/src/main/java/com/fraud/common/util/MaskingUtil.java:6-11 | masking an already masked PAN changes nothing |
| MaskingUtil.MaskCardExample | fraud-common/src/main/java/com/fraud/common/util/MaskingUtil.java:9-10 | a 16-digit PAN masks to `**** **** **** 5678`; `1234` is left as is |
| JavaText.TrimEmptyIffTrimBlank | transaction-service/src/main/java/com/fraud/transaction/service/TransactionService.java:105 | `trim()` leaves nothing exactly when every character is at most U+0020 |
| Ipv4Pattern.MatchesOctetIffCanonical | transaction-service/src/main/java/com/fraud/transaction/api/request/CreateTransactionRequest.java:49 | the octet alternation `25[0-5]|2[0-4][0-9]|1[0-9]{2}|[1-9]?[0-9]` accepts exactly the decimal numerals 0..255 without leading zeros |
| Ipv4Pattern.IpPatternIffDottedQuad | transaction-service/src/main/java/com/fraud/transaction/api/request/CreateTransactionRequest.java:48-52 | the address pattern accepts exactly the empty string and four dot-separated canonical octets |
| Ipv4Pattern.PrivateAddressAccepted | transaction-service/src/main/java/com/fraud/transaction/api/request/CreateTransactionRequest.java:48-52 | `192.168.1.1` and `192.168.0.1` are accepted |
| Ipv4Pattern.MalformedAddressRejected | transaction-service/src/main/java/com/fraud/transaction/api/request/CreateTransactionRequest.java:48-52 | `999.999.999.999` (an octet out of range) and `01.2.3.4` (a leading zero) are rejected |
| Constraints.NotBlankIffTrimmedNonEmpty | transaction-service/src/main/java/com/fraud/transaction/api/request/CreateTransactionRequest.java:29-30 | `@NotBlank` holds exactly when the value is non-null and its trimmed form is non-empty |
| Constraints.IpPatternIffEmptyOrDottedQuad | transaction-service/src/main/java/com/fraud/transaction/api/request/UpdateTransactionRequest.java:52-57 | `@Pattern` on the address holds exactly for null, the empty string or a dotted quad |
| CreateRequest.Validate | transaction-service/src/main/java/com/fraud/transaction/api/request/CreateTransactionRequest.java:21-68 | only the twelve declared (field, message) violations can be reported |
| CreateRequest.AmountConstraintsReported | transaction-service/src/main/java/com/fraud/transaction/api/request/CreateTransactionRequest.java:21-23 | "Amount is required" iff amount is null; "Amount must be positive" iff it is present and not above zero |
| CreateRequest.CurrencyConstraintsReported | transaction-service/src/main/java/com/fraud/transaction/api/request/CreateTransactionRequest.java:25-27 | "Currency is required" iff null or blank after trimming; the ISO-code message iff longer than 3 |
| CreateRequest.RequiredTextReported | transaction-service/src/main/java/com/fraud/transaction/api/request/CreateTransactionRequest.java:29-38 | merchantId and transactionType are reported iff null or blank after trimming |
| CreateRequest.LengthLimitsReported | transaction-service/src/main/java/com/fraud/transaction/api/request/CreateTransactionRequest.java:32-68 | cardNumberMasked is reported iff longer than 32, idempotencyKey iff longer than 128 |
| CreateRequest.RiskScoreConstraintsReported | transaction-service/src/main/java/com/fraud/transaction/api/request/CreateTransactionRequest.java:42-44 | a present risk score below 0 or above 100 is reported with the matching message; null is fine |
| CreateRequest.AddressAndTimeReported | transaction-service/src/main/java/com/fraud/transaction/api/request/CreateTransactionRequest.java:48-62 | a present, non-empty address that is not a dotted quad is reported; a transaction time after now is reported |
| CreateRequest.ValidIffAllConstraintsHold | transaction-service/src/main/java/com/fraud/transaction/api/request/CreateTransactionRequest.java:21-68 | no violation iff every field constraint holds |
| CreateRequest.NegativeAmountIsTheOnlyViolation | transaction-service/src/main/java/com/fraud/transaction/api/request/CreateTransactionRequest.java:21-23 | amount -10 with valid required fields and null optional ones gives exactly "Amount must be positive" |
| UpdateRequest.Validate | transaction-service/src/main/java/com/fraud/transaction/api/request/UpdateTransactionRequest.java:19-63 | only the twelve declared (field, message) violations can be reported |
| UpdateRequest.AmountConstraintsReported | transaction-service/src/main/java/com/fraud/transaction/api/request/UpdateTransactionRequest.java:19-21 | amount required and strictly positive, both directions |
| UpdateRequest.CurrencyConstraintsReported | transaction-service/src/main/java/com/fraud/transaction/api/request/UpdateTransactionRequest.java:23-25 | currency non-blank and at most 3 characters, both directions |
| UpdateRequest.RequiredTextReported | transaction-service/src/main/java/com/fraud/transaction/api/request/UpdateTransactionRequest.java:27-36 | merchantId and transactionType reported iff null or blank after trimming |
| UpdateRequest.LengthLimitsReported | transaction-service/src/main/java/com/fraud/transaction/api/request/UpdateTransactionRequest.java:30-43 | cardNumberMasked reported iff longer than 32, flagReason iff longer than 512 |
| UpdateRequest.RiskScoreConstraintsReported | transaction-service/src/main/java/com/fraud/transaction/api/request/UpdateTransactionRequest.java:45-47 | a present risk score outside 0..100 is reported |
| UpdateRequest.AddressAndTimeReported | transaction-service/src/main/java/com/fraud/transaction/api/request/UpdateTransactionRequest.java:52-63 | address must be empty or a dotted quad; transaction time not after now |
| UpdateRequest.UnconstrainedFieldsIgnored | transaction-service/src/main/java/com/fraud/transaction/api/request/UpdateTransactionRequest.java:33-60 | isFlagged, cardType, responseCode, reviewStatus, channel, deviceId and location never affect the result |
| UpdateRequest.ValidIffAllConstraintsHold | transaction-service/src/main/java/com/fraud/transaction/api/request/UpdateTransactionRequest.java:19-63 | no violation iff every field constraint holds |
| FlagRequest.Validate | transaction-service/src/main/java/com/fraud/transaction/model/FlagTransactionRequest.java:9-10 | the only possible violation is "Comment is required to flag a transaction." |
| FlagRequest.CommentRequiredIffBlank | transaction-service/src/main/java/com/fraud/transaction/model/FlagTransactionRequest.java:9-10 | accepted iff the comment is non-null and has a character above U+0020 (equivalently, trims to something) |
| FlagRequest.MissingCommentsRejected | transaction-service/src/main/java/com/fraud/transaction/model/FlagTransactionRequest.java:9-10 | null, empty and whitespace-only comments are rejected |
| ServiceMapper.MapTransactionToTransactionDto | transaction-service/target/generated-sources/annotations/com/fraud/transaction/service/TransactionMapperImpl.java:19-46 | null iff null; the 18 shared fields are copied unchanged |
| ServiceMapper.MapTransactionDtoToTransaction | transaction-service/target/generated-sources/annotations/com/fraud/transaction/service/TransactionMapperImpl.java:49-76 | null iff null; the 18 shared fields are copied and id, flaggedAt, flaggedBy, updatedAt stay unset |
| ServiceMapper.DtoRoundTrip | transaction-service/target/generated-sources/annotations/com/fraud/transaction/service/TransactionMapperImpl.java:19-76 | DTO to entity to DTO is the identity, null included |
| ServiceMapper.EntityRoundTripDropsAuditFields | transaction-service/target/generated-sources/annotations/com/fraud/transaction/service/TransactionMapperImpl.java:49-76 | entity to DTO to entity gives the entity with exactly id, flaggedAt, flaggedBy and updatedAt cleared |
| ServiceMapper.ToTransactionDtoList | transaction-service/target/generated-sources/annotations/com/fraud/transaction/service/TransactionMapperImpl.java:79-90 | null iff null; same length, element i is the mapping of input i (a null element maps to null) |
| TransactionMapper.ToDto | transaction-service/src/main/java/com/fraud/transaction/mapper/TransactionMapper.java:14 | null iff null; each of the entity's 21 fields other than id lands in the DTO field of the same name |
| TransactionMapper.ToDtoForgetsOnlyId | transaction-service/src/main/java/com/fraud/transaction/mapper/TransactionMapper.java:14 | two entities map to the same DTO iff they differ at most in id |
| TransactionMapper.ToDtoList | transaction-service/src/main/java/com/fraud/transaction/mapper/TransactionMapper.java:16 | null iff null; same length, element i is `toDto` of input i |
| TransactionMapper.FromCreateRequest | transaction-service/src/main/java/com/fraud/transaction/mapper/TransactionMapper.java:21-30 | null iff null; id, transactionId, createdAt, updatedAt, flaggedAt, flaggedBy and isFlagged stay unset; the thirteen request fields with a same-name entity field are copied |
| TransactionMapper.FromCreateRequestIffSameCopiedFields | transaction-service/src/main/java/com/fraud/transaction/mapper/TransactionMapper.java:21-30 | two create requests give the same entity iff they agree on the thirteen copied fields |
| TransactionMapper.FromCreateRequestIgnoresIdempotencyKey | transaction-service/src/main/java/com/fraud/transaction/mapper/TransactionMapper.java:30 | the idempotency key has no target field and never affects the entity |
| TransactionMapper.Overwrite | transaction-service/src/main/java/com/fraud/transaction/mapper/TransactionMapper.java:33 | a non-null request value wins; a null one keeps the current value |
| TransactionMapper.PatchKeepsAuditFields | transaction-service/src/main/java/com/fraud/transaction/mapper/TransactionMapper.java:34-41 | the patch never changes id, transactionId, createdAt, updatedAt, flaggedAt or flaggedBy |
| TransactionMapper.NullPropertiesChangeNothing | transaction-service/src/main/java/com/fraud/transaction/mapper/TransactionMapper.java:33 | a null request, or one with every property null, leaves the entity unchanged |
| TransactionMapper.FullRequestOverwritesAll | transaction-service/src/main/java/com/fraud/transaction/mapper/TransactionMapper.java:42 | a request with every property set overwrites all sixteen updatable fields with its values |
| TransactionMapper.PatchesCompose | transaction-service/src/main/java/com/fraud/transaction/mapper/TransactionMapper.java:33-42 | two patches in a row equal one patch with the later non-null values laid over the earlier ones |
| TransactionMapper.PatchIdempotent | transaction-service/src/main/java/com/fraud/transaction/mapper/TransactionMapper.java:33-42 | applying the same update twice gives the same entity as applying it once |
| TransactionMapper.UpdateFromUpdateRequest | transaction-service/src/main/java/com/fraud/transaction/mapper/TransactionMapper.java:42 | the entity's new state is the null-ignoring patch of its old state |
| Http.HttpStatus.Value | transaction-service/src/main/java/com/fraud/transaction/exception/ApiError.java:31 | the numeric code: 2xx exactly for OK and Created, 5xx exactly for the server error (section 15 of RFC 9110) |
| Http.ValueInjective | transaction-service/src/main/java/com/fraud/transaction/exception/ApiError.java:31 | distinct statuses have distinct codes |
| ApiErrors.NewApiError | transaction-service/src/main/java/com/fraud/transaction/exception/ApiError.java:30-36 | status is the numeric code, error the reason phrase, message and path stored unchanged, fieldErrors unset, timestamp the clock |
| ApiErrors.CodeDeterminesPhrase | transaction-service/src/main/java/com/fraud/transaction/exception/ApiError.java:31-32 | the numeric status determines the reason phrase |
| ExceptionHandler.HandleNotFound | transaction-service/src/main/java/com/fraud/transaction/exception/GlobalExceptionHandler.java:49-54 | 404 with the exception's message and the request path; response status equals body status |
| ExceptionHandler.HandleBadRequest | transaction-service/src/main/java/com/fraud/transaction/exception/GlobalExceptionHandler.java:68-73 | 400 with the exception's message |
| ExceptionHandler.HandleUnreadable | transaction-service/src/main/java/com/fraud/transaction/exception/GlobalExceptionHandler.java:87-92 | 400 with the fixed message "Malformed JSON request" and no field errors |
| ExceptionHandler.FormatFieldError | transaction-service/src/main/java/com/fraud/transaction/exception/GlobalExceptionHandler.java:182-184 | `field: message`, with `null` for a missing message |
| ExceptionHandler.FormatConstraintViolation | transaction-service/src/main/java/com/fraud/transaction/exception/GlobalExceptionHandler.java:196-201 | `path: message` |
| ExceptionHandler.FormatFieldErrors | transaction-service/src/main/java/com/fraud/transaction/exception/GlobalExceptionHandler.java:108-111 | one formatted entry per field error, in order |
| ExceptionHandler.FormatConstraintViolations | transaction-service/src/main/java/com/fraud/transaction/exception/GlobalExceptionHandler.java:135-138 | one formatted entry per violation, in order |
| ExceptionHandler.HandleValidationErrors | transaction-service/src/main/java/com/fraud/transaction/exception/GlobalExceptionHandler.java:106-119 | 400 "Validation failed for request body" with the formatted field errors |
| ExceptionHandler.HandleConstraintViolation | transaction-service/src/main/java/com/fraud/transaction/exception/GlobalExceptionHandler.java:133-146 | 400 "Validation failed for request parameters" with the formatted violations |
| ExceptionHandler.HandleAll | transaction-service/src/main/java/com/fraud/transaction/exception/GlobalExceptionHandler.java:160-169 | 500 with the exception's message, or "Internal server error" when it is null |
| ExceptionHandler.Handle | transaction-service/src/main/java/com/fraud/transaction/exception/GlobalExceptionHandler.java:49-169 | every handler's response status equals its body's status, and path and timestamp are the request's |
| ExceptionHandler.StatusClassifiesException | transaction-service/src/main/java/com/fraud/transaction/exception/GlobalExceptionHandler.java:49-169 | 404 iff not-found, 500 iff an unhandled exception, 400 iff one of the four client errors |
| ExceptionHandler.FieldErrorsOnlyForValidation | transaction-service/src/main/java/com/fraud/transaction/exception/GlobalExceptionHandler.java:106-146 | field errors are present iff the exception is a validation failure |
| ExceptionHandler.UnreadableHidesDetail | transaction-service/src/main/java/com/fraud/transaction/exception/GlobalExceptionHandler.java:87-92 | the unreadable-body response does not depend on the exception text |
| TransactionServices.NotFoundMessage | transaction-service/src/main/java/com/fraud/transaction/service/TransactionService.java:85 | the not-found message ends with the requested id |
| TransactionServices.UpdateReadsBackAsSubmitted | transaction-service/src/main/java/com/fraud/transaction/service/TransactionService.java:40-58 | after an update the record maps back to the submitted DTO, except that transactionId stays the stored one |
| TransactionServices.UpdateKeepsAuditFields | transaction-service/src/main/java/com/fraud/transaction/service/TransactionService.java:40-56 | the update keeps id, transactionId, updatedAt, flaggedAt and flaggedBy |
| TransactionServices.CreatedRecordReadsBack | transaction-service/src/main/java/com/fraud/transaction/service/TransactionService.java:67-69 | a created record maps back to the submitted DTO with createdAt and transactionTime set to now |
| TransactionServices.FlagChangesFiveFields | transaction-service/src/main/java/com/fraud/transaction/service/TransactionService.java:87-91 | flagging sets isFlagged true, flagReason to the comment, flaggedBy "system", flaggedAt and updatedAt to now, and no other field changes |
| TransactionServices.FindForFlag | transaction-service/src/main/java/com/fraud/transaction/service/TransactionService.java:84-85 | found iff stored; a missing id gives not-found with "Transaction not found with transaction id: " and the id |
| TransactionServices.FindForFlagAsWritten | transaction-service/src/main/java/com/fraud/transaction/service/TransactionService.java:84 | as written: a missing id gives a message-less unhandled exception |
| TransactionServices.MissingFlagTargetAnswered | transaction-service/src/main/java/com/fraud/transaction/service/TransactionService.java:84-85 | flagging a missing id is answered 500 "Internal server error" as written, 404 naming the id as intended |
| TransactionServices.FlaggedRecords | transaction-service/src/main/java/com/fraud/transaction/service/TransactionService.java:97 | exactly the stored records with isFlagged true |
| TransactionServices.MerchantRecords | transaction-service/src/main/java/com/fraud/transaction/service/TransactionService.java:109 | exactly the stored records with that merchantId |
| TransactionServices.FlaggingUpdatesFlaggedSet | transaction-service/src/main/java/com/fraud/transaction/service/TransactionService.java:83-101 | flagging a record replaces its old version by the flagged one in the flagged set and changes nothing else there |
| TransactionServices.TransactionService.GetTransactionById | transaction-service/src/main/java/com/fraud/transaction/service/TransactionService.java:29-35 | 200 with the mapped record iff stored; otherwise 404 with no body |
| TransactionServices.TransactionService.UpdateTransaction | transaction-service/src/main/java/com/fraud/transaction/service/TransactionService.java:37-63 | a stored id is overwritten from the DTO and answered 200 with the saved record; an absent id is 404 and the table is unchanged |
| TransactionServices.TransactionService.CreateTransaction | transaction-service/src/main/java/com/fraud/transaction/service/TransactionService.java:65-76 | 201 "Transaction created successfully" iff the DTO and its transactionId are non-null and that id is new, storing the stamped record; otherwise 400 "Failed to create transaction" and nothing changes |
| TransactionServices.TransactionService.FlagTransaction | transaction-service/src/main/java/com/fraud/transaction/service/TransactionService.java:83-94 | fails iff the id is absent (not-found, nothing saved); otherwise saves and returns the flagged record, which is then in the flagged set |
| TransactionServices.TransactionService.FlagTransactionAsWritten | transaction-service/src/main/java/com/fraud/transaction/service/TransactionService.java:83-94 | as written: a missing id raises an unhandled exception; the table is unchanged |
| TransactionServices.TransactionService.GetFlaggedTransactions | transaction-service/src/main/java/com/fraud/transaction/service/TransactionService.java:96-102 | exactly the stored records with isFlagged true |
| TransactionServices.TransactionService.GetTransactionsByMerchant | transaction-service/src/main/java/com/fraud/transaction/service/TransactionService.java:104-114 | fails with "Merchant ID must not be null or empty." iff the id is null or trims to nothing; otherwise exactly that merchant's records |
| Merchants.FromDto | merchant-service/src/main/java/com/fraud/merchant/service/MerchantService.java:21 | the payload maps to a merchant without database id and with the same business id |
| Merchants.NewMerchantKeepsPayload | merchant-service/src/main/java/com/fraud/merchant/service/MerchantService.java:26-28 | the saved merchant keeps every payload field and has createdAt and updatedAt set to now |
| Merchants.InsertKeepsUniqueIffFresh | merchant-service/src/main/java/com/fraud/merchant/entity/Merchant.java:13-14 | inserting keeps business ids unique iff the new business id is not yet stored |
| Merchants.CreateMerchantAsWritten | merchant-service/src/main/java/com/fraud/merchant/service/MerchantService.java:17-31 | with the repository field null every create fails with a NullPointerException; with a table it succeeds iff the business id is present and not yet stored |
| Merchants.UnwiredRepositoryRejectsEveryCreate | merchant-service/src/main/java/com/fraud/merchant/service/MerchantService.java:17-23 | the unassigned field rejects every payload, while a wired empty table accepts any payload with a business id |
| Merchants.MerchantService.CreateMerchant | merchant-service/src/main/java/com/fraud/merchant/service/MerchantService.java:20-31 | insert-if-absent: a taken merchantId fails with "Merchant ID already exists" and nothing changes; a new one is saved once, stamped, answered 201 "Merchant created Successfully"; business ids stay unique |
| Merchants.MerchantService.GetMerchantById | merchant-service/src/main/java/com/fraud/merchant/service/MerchantService.java:33-35 | the merchant with that numeric id as a one-element list, or the empty list; nothing changes |
| Correlation.GetHeader | fraud-common/src/main/java/com/fraud/common/filter/CorrelationIdFilter.java:16 | the header's value iff the request carries it |
| Correlation.ChooseCorrelationId | fraud-common/src/main/java/com/fraud/common/filter/CorrelationIdFilter.java:16-19 | a present, non-blank header is used verbatim; a null or blank one is replaced by the generated id |
| Correlation.ChosenIdNeverBlank | fraud-common/src/main/java/com/fraud/common/filter/CorrelationIdFilter.java:17-19 | the chosen id is never blank and is one of the two candidates |
| Correlation.PutThenRemoveRestores | fraud-common/src/main/java/com/fraud/common/filter/CorrelationIdFilter.java:20-25 | putting and then removing the key leaves every other entry as it was |
| Correlation.DoFilter | fraud-common/src/main/java/com/fraud/common/filter/CorrelationIdFilter.java:14-26 | the chain runs exactly once with the same request and response while the MDC holds the chosen id; afterwards the key is gone and every other entry is untouched, whatever the outcome |
| Correlation.MissingHeaderUsesFreshId | fraud-common/src/main/java/com/fraud/common/filter/CorrelationIdFilter.java:17-19 | no header means the generated id |
| Correlation.WhitespaceHeaderReplaced | fraud-common/src/main/java/com/fraud/common/filter/CorrelationIdFilter.java:17-19 | a whitespace-only header is replaced by the generated id |
| MerchantFallback.GetMerchantById | transaction-service/src/main/java/com/fraud/transaction/integration/MerchantClientFallback.java:9-17 | echoes the id (null included), name "UNKNOWN", location and category "N/A" |
| MerchantFallback.FallbackDeterminedById | transaction-service/src/main/java/com/fraud/transaction/integration/MerchantClientFallback.java:9-17 | two fallback records are equal iff their ids are |
| ProducerScheduler.GetTransactionRequestSeed | transaction-service/src/main/java/com/fraud/transaction/producer/KafkaTransactionProducerScheduler.java:154-164 | a parse failure gives the empty list; otherwise the parsed value |
| ProducerScheduler.SeedList | transaction-service/src/main/java/com/fraud/transaction/producer/KafkaTransactionProducerScheduler.java:131-135 | a failed or null seed gives the empty list |
| ProducerScheduler.FlattenBatches | transaction-service/src/main/java/com/fraud/transaction/producer/KafkaTransactionProducerScheduler.java:137-140 | joining the batches in order reproduces the list exactly |
| ProducerScheduler.BatchCount | transaction-service/src/main/java/com/fraud/transaction/producer/KafkaTransactionProducerScheduler.java:137-139 | there are ceil(n / batchSize) batches |
| ProducerScheduler.BatchSizes | transaction-service/src/main/java/com/fraud/transaction/producer/KafkaTransactionProducerScheduler.java:137-139 | each batch is non-empty and at most batchSize long; all but the last are exactly batchSize |
| ProducerScheduler.ThreeInPairs | transaction-service/src/main/java/com/fraud/transaction/producer/KafkaTransactionProducerScheduler.java:137-139 | three items in batches of two give sizes 2 and 1 |
| ProducerScheduler.SplitTransactionsIntoBatches | transaction-service/src/main/java/com/fraud/transaction/producer/KafkaTransactionProducerScheduler.java:128-143 | the loop's result is the batching of the seed list: it flattens back to the list and has ceil(n / batchSize) batches |
| ProducerScheduler.BatchOutcome | transaction-service/src/main/java/com/fraud/transaction/producer/KafkaTransactionProducerScheduler.java:111-115 | a batch completes iff the producer accepts all its requests; otherwise it fails at the first rejected one |
| ProducerScheduler.CyclePublishedSplits | transaction-service/src/main/java/com/fraud/transaction/producer/KafkaTransactionProducerScheduler.java:88-96 | a failing batch does not affect the publishes of the others |
| ProducerScheduler.AllAcceptedPublishesAll | transaction-service/src/main/java/com/fraud/transaction/producer/KafkaTransactionProducerScheduler.java:97 | when every publish succeeds, every request of every batch is published |
| ProducerScheduler.TwoSingleBatches | transaction-service/src/main/java/com/fraud/transaction/producer/KafkaTransactionProducerScheduler.java:97 | two one-request batches give two publishes |
| ProducerScheduler.SeedFailurePublishesNothing | transaction-service/src/main/java/com/fraud/transaction/producer/KafkaTransactionProducerScheduler.java:154-164 | a seed that fails to load gives zero batches and zero publishes |
| ProducerScheduler.KafkaTransactionEventProducer.CreateTransaction | transaction-service/src/main/java/com/fraud/transaction/producer/KafkaTransactionEventProducer.java:22-24 | an accepted request is appended to the topic; a rejected one throws and sends nothing |
| ProducerScheduler.ProcessTransactionRequestBatch | transaction-service/src/main/java/com/fraud/transaction/producer/KafkaTransactionProducerScheduler.java:111-115 | publishes the batch's requests once each, in order, up to the first failing send, and reports that position |
| ProducerScheduler.ProduceScheduledTransaction | transaction-service/src/main/java/com/fraud/transaction/producer/KafkaTransactionProducerScheduler.java:85-101 | every batch runs and has its outcome recorded; the topic receives each batch's published prefix, and every request of the seed list exactly once (as a multiset) when every send succeeds |

## Left out

- Persistence: JPA and the derived queries become a `map` field.
  `TransactionRepository.findByTransactionId` is declared to return an
  `Optional`, while `TransactionService` uses its result as a nullable
  record. The lookup is modelled as map membership, and absence is treated
  as the error outcome.
- TransactionServices.FlaggedRecords, TransactionServices.MerchantRecords and
  the service methods returning them give a set, where the derived queries
  return a `List`: result order and multiplicity are not modelled. The
  queries have no ordering clause, and rows are distinct by their id.
- Clock reads: `LocalDateTime.now()` is a `now` parameter.
  `createTransaction`, `flagTransaction`, `createMerchant` and the `ApiError`
  constructor each read the clock twice. The model takes both reads as the
  same instant.
- `UUID.randomUUID()` is the `freshId` parameter of `Correlation.DoFilter`.
- `BigDecimal` amounts are integers; only their sign and equality matter.
- Concurrency is not modelled. That covers the executor pool,
  `CompletableFuture.runAsync`/`exceptionally`/`allOf`/`join`, the
  `@Scheduled` trigger and the `@PostConstruct`/`@PreDestroy` executor
  lifecycle. Batches run one after another, and each batch's outcome is
  recorded. The order between sends of different batches is therefore the
  model's, not the program's: on the thread pool, sends of different
  batches can interleave. Only the order within a batch and the multiset of
  sends are the program's.
- Kafka I/O: a send is an abstract step that succeeds or throws, given by
  the `accepts` predicate. A send that fails asynchronously after being
  queued is not modelled.
- JSON parsing of the seed file: the parse result, or a parse failure, is an
  input (`SeedLoad`).
- ProducerScheduler.SplitTransactionsIntoBatches: requires `batchSize > 0`.
  With 0 the source loop never terminates. With a negative size `subList`
  throws, and the cycle logs and swallows the exception. The overflow of the
  32-bit `i += batchSize` for lists near 2^31 elements is not modelled.
- Logging calls (`log.info`, `log.error`, `printStackTrace`) are left out;
  they only have output effects.
- `TransactionService.getAllTransaction` is not part of this model.
- TransactionServices.TransactionService.UpdateTransaction: a null DTO (a
  `NullPointerException` with a JVM-generated message) is not modelled; the
  DTO is taken as present.
- TransactionServices.TransactionService.CreateTransaction: `save` is
  modelled as failing only on the two constraints the entity declares
  (`transactionId` non-null and unique). Other database failures are not
  modelled.
- Merchants.MerchantService.CreateMerchant: the generated `MerchantMapper`
  implementation is not part of this model, so it is taken as a same-name
  field copy.
- Merchants.MerchantService.CreateMerchant: a null payload is not modelled.
- Merchants.MerchantService.CreateMerchant: the repository field carries no
  injection annotation, and the class models it as wired to the table (see
  Findings); `getMerchantById` shares the defect and is modelled wired too.
- Correlation.DoFilter: `getHeader` is case-insensitive in the servlet API,
  but the model looks the header up by its exact name.
- Correlation.DoFilter: the rest of the chain is taken not to write to the
  MDC itself.
- Controllers, routing and configuration are left out. So is the point at
  which Spring triggers Bean Validation, and the Feign interface behind the
  fallback.
- MaskingUtil.MaskCard: Java's `length()` and `substring` count UTF-16
  code units, the model counts Unicode scalar values; the two differ only
  for card numbers with characters outside the Basic Multilingual Plane.
- `@Size` counts UTF-16 code units in Java but Unicode scalar values here.
  The two differ only for characters outside the Basic Multilingual Plane.

## Findings

| source | as written | input that shows it | evidently intended | confidence | as-written member | corrected member |
|---|---|---|---|---|---|---|
| transaction-service/src/main/java/com/fraud/transaction/service/TransactionService.java:84 | taking the repository lookup to return a nullable record, as the service's call sites at lines 30, 38 and 84 do, `Optional.of(...)` wraps the null for an unknown id and throws `NullPointerException` before `orElseThrow` runs, and the handler answers 500 "Internal server error". Against the `Optional<Transaction>` signature that `TransactionRepository.java:32` declares, line 84 does not type-check at all | flagging any `transactionId` not in the table | `Optional.ofNullable(...)`, so the unknown id raises `EntityNotFoundException` and is answered 404 "Transaction not found with transaction id: <id>" | medium; not executed | TransactionServices.TransactionService.FlagTransactionAsWritten | TransactionServices.TransactionService.FlagTransaction |
| merchant-service/src/main/java/com/fraud/merchant/service/MerchantService.java:17 | `merchantRepository` has no `@Autowired` and no constructor assigns it, so it stays null and `existsByMerchantId` throws `NullPointerException` | any `createMerchant` call (and likewise any `getMerchantById` call) | the field injected, for example with `@Autowired` or constructor injection, so a fresh business id is saved and answered 201 | high; not executed | Merchants.CreateMerchantAsWritten | Merchants.MerchantService.CreateMerchant |
