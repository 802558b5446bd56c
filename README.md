# A verified model of the zen service core

This project models, in Dafny, the sequential logic of a Go web-service
skeleton (gin, gorm, go-redis). It covers ten components:

- **Retry engine** (`internal/retryx/retryx.go`): a `Retrier` with functional options and
  a `Do` loop. The loop retries an operation with a clamped geometric backoff
  plus jitter. It ends on success, on an error the filter rejects, when
  attempts run out, when the elapsed-time limit is reached, or when the
  context is cancelled during a wait.
- **Query builder** (`app/dao/dao/dao.go`): immutable chain builders that
  clone and append conditions; `field__op` key parsing; and the renderer
  that turns a tree of conditions and AND/OR groups into a SQL fingerprint
  with its argument list.
- **HTTP body logging** (`app/middleware/logger/logger.go`, `option.go`):
  - the capped response-body capture;
  - content-type and body sniffing;
  - the decision to log a body;
  - truncation;
  - masking of sensitive keys in a JSON tree;
  - the middleware's option record.
- **i18n** (`internal/i18n/i18n.go`): language-tag normalisation, the
  fallback chain, message lookup, single-key update, and the request
  language carried in a context.
- **API helpers** (`app/handler/api/common/api.go`): pagination through two
  integer pointers, flexible error codes, error accumulation, header
  defaults, and nil response data.
- **MySQL and Redis helpers**: the gorm logger's defaults and its trace branch
  (`internal/database/mysql/logger.go`); DSN cutting, environment selection
  and the engine registry (`internal/database/mysql/mysql.go`); Redis
  defaults and the client registry (`internal/database/redis/redis.go`).
- **Trace ID** (`internal/database/context.go`): storing and reading the trace ID in a context.

Each Go file has its own module. Code that updates objects in place becomes a
Dafny class with `modifies` clauses. Examples: `Retrier`, `DAO`,
`BodyLogWriter`, the two `LogConfig` records, `Manager`, `Api`, `FileLogger`
and the `*int` cells of `pagination`. Each such method is proved against a
specification function, and the source's promises are proved as lemmas about
that function. Pure Go helpers become functions.

Several modules are shared helpers:
- `Text`: the subset of Go's `strings` package that is used, with ASCII case mapping.
- `StrOrder`: the byte order of `sort.Strings`.
- `GoContext`: `context.WithValue` chains.
- `Wrappers`: `Option`.
- `GoInt`: the range of Go's 64-bit `int` and the wrap-around of its arithmetic.
- `Environment`: the environment names "prod" and "test" and the
  per-environment registry lookup with a fallback key.

Modelling conventions:
- Durations are integers of nanoseconds.
- The operation, the clock, the random jitter draw, cancellation, database
  outcomes and JSON encoding are parameters ("oracles").

## Model

| member | source | states |
|---|---|---|
| Retryx.Budget | internal/retryx/retryx.go:49-63 | the call budget is at least 1 and at least maxRetries |
| Retryx.TruncDiv | internal/retryx/retryx.go:70-76 | float-to-Duration truncation: for a non-negative numerator the quotient is non-negative and does not overshoot |
| Retryx.Backoff | internal/retryx/retryx.go:70-73 | the pre-jitter wait is at most maxDelay and at most delay*factor, and equals one of the two |
| Retryx.JitterBounds | internal/retryx/retryx.go:74-77 | jitter is non-negative and at most pre*jitterFactor, so pre <= wait <= pre*(1+jitterFactor) |
| Retryx.Step | internal/retryx/retryx.go:49-89 | a failed attempt that goes on adds exactly one wait (the next delay) and one onRetry notice when a callback is set |
| Retryx.Stop | internal/retryx/retryx.go:49-90 | a terminal attempt ends the loop with at most one wait begun |
| Retryx.FirstSuccess | internal/retryx/retryx.go:50-53 | a first call that succeeds is returned as is, with one call, no onRetry and no wait |
| Retryx.RejectedOnFirstFailure | internal/retryx/retryx.go:56-58 | an error the filter rejects is returned unchanged after one call, with no onRetry and no wait |
| Retryx.CallsBounded | internal/retryx/retryx.go:49-63 | the operation runs at least once and at most max(maxRetries, 1) times |
| Retryx.AlwaysFailing | internal/retryx/retryx.go:60-63 | when only the cap can stop it, an always-failing operation runs exactly max(maxRetries,1) times and Do returns "retry failed after maxRetries attempts" wrapping the last error |
| Retryx.NoticesNumbered | internal/retryx/retryx.go:60-82 | onRetry sees consecutive attempt numbers, each below maxRetries, once per wait and with that wait; none without a callback |
| Retryx.DelaysFollowSchedule | internal/retryx/retryx.go:47-78 | each wait is the clamped geometric step from the previous wait plus its jitter |
| Retryx.NoJitterWaits | internal/retryx/retryx.go:47-78 | without jitter each wait is min(previous*factor, maxDelay), starting from initialDelay, and never exceeds maxDelay |
| Retryx.FirstWait | internal/retryx/retryx.go:47-78 | the first wait is already scaled: min(initialDelay*backoffFactor, maxDelay) plus jitter; initialDelay itself is never waited |
| Retryx.JitteredWaits | internal/retryx/retryx.go:70-78 | with jitter every wait lies between its pre-jitter step and that step times (1+jitterFactor), so it can exceed maxDelay |
| Retryx.NextDelayWithinJitter | internal/retryx/retryx.go:70-78 | one step from a non-negative delay stays non-negative and within the jitter bound |
| Retryx.WaitsNonNegative | internal/retryx/retryx.go:47-78 | every wait of a schedule that starts from a non-negative delay is non-negative |
| Retryx.ExitsClassified | internal/retryx/retryx.go:56-90 | the exit is Succeeded exactly when the result is a success; each failing exit implies its cause: the filter refused the error (returned as is), the cap was reached (the error wrapped as "retry failed"), the elapsed limit was passed below the cap, or the context was cancelled during a begun wait (ctx.Err()); only a cancelled run has one more wait than retries |
| Retryx.FourthAttemptSucceeds | internal/retryx/retryx.go:26-89 | with 4 retries, the default 100ms and factor 2 and no jitter, three failures then 42 give success after 4 calls, waits of 200, 400 and 800ms, and notices for attempts 1 to 3 |
| Retryx.OptionSetsOneField | internal/retryx/retryx.go:94-111 | each With… option leaves every other field alone, and the field it names ends the same whatever its starting value |
| Retryx.UnnamedFieldKept | internal/retryx/retryx.go:36-38 | a field that no option names keeps its default |
| Retryx.LastOptionWins | internal/retryx/retryx.go:36-38 | the last option naming a field decides it |
| Retryx.Retrier.constructor | internal/retryx/retryx.go:27-35 | defaults: 5 retries, 30s, 100ms, 5s, factor 2, jitter 0.1 |
| Retryx.Retrier.Apply | internal/retryx/retryx.go:94-111 | running an option closure changes the Retrier as the option's specification says |
| Retryx.Retrier.Do | internal/retryx/retryx.go:43-91 | the loop's result, exit, call count, notices and waits equal the specification RunDo |
| Retryx.Retrier.NextWait | internal/retryx/retryx.go:69-77 | the wait computed in place is the specification's NextDelay: the delay times the factor, clamped to the maximum, plus a jitter share when jitter is on |
| Retryx.Retrier.Attempt | internal/retryx/retryx.go:49-89 | one loop turn: when a terminal check fires it returns exactly the run the specification ends with; otherwise it returns the specification's next wait and onRetry notice |
| Retryx.NewRetrier | internal/retryx/retryx.go:26-40 | a fresh Retrier holding the defaults with every option applied in order |
| Dao.NormalizeOp | app/dao/dao/dao.go:365-370 | a spelled-out operator in any case maps through opMap, any other is upper-cased; the result has no lower-case letter |
| Dao.NormalizeOpIdempotent | app/dao/dao/dao.go:341-370 | normalising twice is normalising once |
| Dao.ParseKeyField | app/dao/dao/dao.go:352-357 | a key without "__" is (key, "="); otherwise the field is the text before the first "__" and has no "__" |
| Dao.ParseKeyOperator | app/dao/dao/dao.go:352-362 | the operator is the second "__" segment, normalised as normalizeOp does; segments after it are ignored |
| Dao.ParseKeyRoundTrip | app/dao/dao/dao.go:352-370 | field + "__" + op parses back to (field, normalizeOp(op)) |
| Dao.Flatten | app/dao/dao/dao.go:494-504 | a slice gives its elements; anything else, nil included, gives a singleton |
| Dao.RenderCond | app/dao/dao/dao.go:467-491 | an empty IN gives "1=0" with no args; IN gives "field IN (?,…)" with one placeholder per flattened element as args; nil gives "field IS NULL" for =, "field IS NOT NULL" for !=, "field OP NULL" otherwise, with no args; any other value gives "field OP ?" with the value as its one arg |
| Dao.RenderCondPlaceholders | app/dao/dao/dao.go:467-491 | a rendered condition has one '?' per argument |
| Dao.PlaceholdersCount | app/dao/dao/dao.go:476 | TrimRight(Repeat("?,", n), ",") is "?,…,?" with exactly n marks |
| Dao.PartsPlaceholders | app/dao/dao/dao.go:436-463 | one loop level emits one '?' per argument |
| Dao.SectionPlaceholders | app/dao/dao/dao.go:444-455 | the AND and OR sections of a group emit one '?' per argument |
| Dao.CondsPlaceholders | app/dao/dao/dao.go:432-465 | a rendered condition tree has exactly as many '?' as arguments, when no field or operator has one |
| Dao.EmptyGroupSkipped | app/dao/dao/dao.go:456-461 | a group with no AND and no OR members is skipped; any other group gives one part |
| Dao.NestedEmptyGroupKept | app/dao/dao/dao.go:446-459 | a group whose AND list holds only an empty group is not skipped and renders "(())" |
| Dao.PageWindow | app/dao/dao/dao.go:99-109 | a non-positive page is page 1; a positive size sets limit = size and an int64 offset that is 0 on page 1 and (page-1)*size while that fits; otherwise both are kept |
| Dao.CachePage | app/dao/dao/dao.go:380-386 | page <= 0 becomes 1 and size <= 0 becomes 10; positive values are kept |
| Dao.CachePageWindow | app/dao/dao/dao.go:380-393 | the page PaginateWithCache fetches has a positive limit and, while (page-1)*size fits in an int, a non-negative offset of that size |
| Dao.MapConds | app/dao/dao/dao.go:132-135 | one condition per key, in the given order, with field and op from parseKey and value m[k] |
| Dao.WhereMapStep | app/dao/dao/dao.go:131-135 | the least remaining key is the next one in sorted order, and its condition is appended next |
| Dao.WhereMapOnePerKey | app/dao/dao/dao.go:125-137 | WhereMap adds exactly one condition per map key, the keys in strictly ascending order |
| StrOrder.SortedKeysSpec | app/dao/dao/dao.go:131 | sort.Strings lists every key once, in strictly ascending byte order |
| StrOrder.LeastExists | app/dao/dao/dao.go:131 | every non-empty key set has a least key |
| Dao.DAO.constructor | app/dao/dao/dao.go:55-59 | NewDAO starts with an empty query |
| Dao.DAO.Clone | app/dao/dao/dao.go:68-84 | a fresh DAO with the same query state |
| Dao.DAO.Select | app/dao/dao/dao.go:87-91 | a fresh DAO with the fields appended; the receiver is unchanged |
| Dao.DAO.OrderBy | app/dao/dao/dao.go:93-97 | a fresh DAO with the order appended |
| Dao.DAO.Paginate | app/dao/dao/dao.go:99-109 | a fresh DAO whose limit and offset are the PageWindow, the offset product wrapped like Go's int |
| Dao.DAO.WithDeleted | app/dao/dao/dao.go:111-115 | a fresh DAO with unscoped set |
| Dao.DAO.Where | app/dao/dao/dao.go:118-122 | a fresh DAO with exactly one condition appended, with op normalizeOp(op) |
| Dao.DAO.WhereMap | app/dao/dao/dao.go:125-137 | a fresh DAO with the map's conditions appended in ascending key order |
| Dao.DAO.AndGroup | app/dao/dao/dao.go:140-144 | a fresh DAO with one AND group appended |
| Dao.DAO.OrGroup | app/dao/dao/dao.go:162-166 | a fresh DAO with one OR group appended |
| Dao.DAO.Join | app/dao/dao/dao.go:169-173 | a fresh DAO with one join appended |
| Dao.DAO.InnerJoin | app/dao/dao/dao.go:175 | Join with "INNER JOIN" |
| Dao.DAO.LeftJoin | app/dao/dao/dao.go:176 | Join with "LEFT JOIN" |
| Dao.DAO.Eq | app/dao/dao/dao.go:180 | Where with "=" |
| Dao.DAO.Ne | app/dao/dao/dao.go:181 | Where with "!=" |
| Dao.DAO.Gt | app/dao/dao/dao.go:182 | Where with ">" |
| Dao.DAO.Gte | app/dao/dao/dao.go:183 | Where with ">=" |
| Dao.DAO.Lt | app/dao/dao/dao.go:184 | Where with "<" |
| Dao.DAO.Lte | app/dao/dao/dao.go:185 | Where with "<=" |
| Dao.DAO.Like | app/dao/dao/dao.go:186-188 | Where with "LIKE" and the pattern |
| Dao.DAO.In | app/dao/dao/dao.go:189 | Where with "IN" |
| Dao.DAO.Count | app/dao/dao/dao.go:147-159 | no clone: a recorded error leaves everything unchanged and writes no count; a failed query records its error; otherwise the count is written |
| Dao.DAO.Find | app/dao/dao/dao.go:193-208 | a recorded error is returned without querying; otherwise the query's error |
| Dao.DAO.CountTotal | app/dao/dao/dao.go:211-218 | (0, err) for a recorded error, else the query's count and error |
| Dao.DAO.Fingerprint | app/dao/dao/dao.go:426-429 | the conditions rendered with AND, one '?' per argument |
| HttpLoggerOptions.OptionSetsOneField | app/middleware/logger/option.go:12-48 | each With… option sets its own field to the given value and leaves the other five alone |
| HttpLoggerOptions.UnnamedFieldKept | app/middleware/logger/option.go:3-10 | a field that no option names keeps its zero value |
| HttpLoggerOptions.LastOptionWins | app/middleware/logger/logger.go:138-141 | the last option naming a field decides it |
| HttpLoggerOptions.LogConfig.constructor | app/middleware/logger/logger.go:138 | the zero logConfig: false, 0 and a nil key list |
| HttpLoggerOptions.LogConfig.Apply | app/middleware/logger/option.go:12-48 | running an option closure changes the record as the option's specification says |
| HttpLoggerOptions.BuildConfig | app/middleware/logger/logger.go:138-141 | a fresh zero record with every option applied in order |
| HttpLogger.Captured | app/middleware/logger/logger.go:27-36 | the capture is a prefix of everything written, at most max bytes, and exactly max once that much was written |
| HttpLogger.CapturedAppend | app/middleware/logger/logger.go:29-36 | one write adds to the capture just what still fits |
| HttpLogger.BodyLogWriter.constructor | app/middleware/logger/logger.go:163-167 | an empty capture with the given limit |
| HttpLogger.BodyLogWriter.Write | app/middleware/logger/logger.go:27-38 | the capture stays the capped prefix of all writes, the whole slice is forwarded, and its length is returned |
| HttpLogger.CaptureBounded | app/middleware/logger/logger.go:27-38 | the captured body is a prefix of all writes, never longer than maxBodyLen, and everything was forwarded |
| HttpLogger.IsSensitive | app/middleware/logger/logger.go:77-85 | the scan answers whether the key equals some sensitive key, ignoring case |
| HttpLogger.MaskKeepsShape | app/middleware/logger/logger.go:60-75 | scalars are unchanged, arrays keep their length and objects their key set |
| HttpLogger.MaskMembers | app/middleware/logger/logger.go:62-69 | a sensitive member becomes "***"; any other member is masked recursively |
| HttpLogger.MaskHidesAll | app/middleware/logger/logger.go:60-75 | after masking, every sensitive key at any depth holds "***" |
| HttpLogger.MaskIdempotent | app/middleware/logger/logger.go:60-75 | masking a masked tree changes nothing |
| HttpLogger.MaskSensitive | app/middleware/logger/logger.go:41-58 | empty input and text that does not parse come back unchanged |
| HttpLogger.MaskSensitiveIdempotent | app/middleware/logger/logger.go:41-58 | with a marshaller whose output parses back, masking twice is masking once |
| HttpLogger.AcceptedMediaTypeIff | app/middleware/logger/logger.go:96-102 | the accepted media types are exactly application/json, text/json and application/*+json (structured syntax suffix, section 3.1 of RFC 6839) |
| HttpLogger.LowerTrim | app/middleware/logger/logger.go:91 | lower-casing and trimming commute |
| HttpLogger.MediaTypeCaseInsensitive | app/middleware/logger/logger.go:91-95 | content types equal up to case have the same media type |
| HttpLogger.JSONContentTypeCaseInsensitive | app/middleware/logger/logger.go:87-104 | the verdict ignores case |
| HttpLogger.BareMediaType | app/middleware/logger/logger.go:91-95 | a bare type is its own media type, lower-cased |
| HttpLogger.ParameterisedMediaType | app/middleware/logger/logger.go:93-95 | parameters after ';' are dropped |
| HttpLogger.ParametersIgnored | app/middleware/logger/logger.go:87-104 | appending parameters never changes the verdict |
| HttpLogger.LooksLikeJSONBody | app/middleware/logger/logger.go:106-114 | the scan is true exactly when the first byte that is not a space is '{' or '[' |
| HttpLogger.AllSpaceNotJSON | app/middleware/logger/logger.go:106-114 | empty and all-space bodies are rejected |
| HttpLogger.LeadingSpaceIgnored | app/middleware/logger/logger.go:107-110 | leading unicode.IsSpace bytes do not change the verdict |
| HttpLogger.ShouldLogCases | app/middleware/logger/logger.go:116-127 | a body is logged exactly when onlyJSONBody is off, or the type is JSON, or guessing is on and the body looks like JSON |
| HttpLogger.SameDecision | app/middleware/logger/logger.go:179-182 | the response-side decision equals shouldLogReqBody |
| HttpLogger.ReadLimited | app/middleware/logger/logger.go:145-146 | LimitReader gives the first min(n, len) bytes |
| HttpLogger.RequestTruncation | app/middleware/logger/logger.go:144-158 | a request body longer than max is logged as its first max bytes plus "...(truncated)", a shorter one whole |
| HttpLogger.ResponseNeverMarked | app/middleware/logger/logger.go:163-189 | as written, the response log is the capped capture and never carries the mark |
| HttpLogger.ResponseMarkMissing | app/middleware/logger/logger.go:185-189 | "abc" with limit 2 is logged "ab" for a response but "ab...(truncated)" for a request |
| HttpLogger.ResponseTruncation | app/middleware/logger/logger.go:185-189 | with a capture of max+1 bytes, a response is truncated and marked exactly as a request is |
| I18n.NormalizeLang | internal/i18n/i18n.go:194-196 | same length, no '_' and no upper-case ASCII letter |
| I18n.NormalizeLangIdempotent | internal/i18n/i18n.go:194-196 | normalising twice is normalising once |
| I18n.PrimaryTag | internal/i18n/i18n.go:180-182 | the part before the first '-' |
| I18n.FallbackChain | internal/i18n/i18n.go:177-192 | 1 to 3 entries; first the normalised tag, then its primary subtag if it has a '-'; the normalised default is last exactly when the raw default differs from the tag |
| I18n.RegionFallsBackToLanguage | internal/i18n/i18n.go:177-192 | zh_CN with default en gives zh-cn, zh, en |
| I18n.UnnormalisedDefaultRepeats | internal/i18n/i18n.go:187-189 | the default en_US is compared unnormalised, so it is appended again: en-us, en, en-us |
| I18n.NormalisedDefaultNotRepeated | internal/i18n/i18n.go:187-189 | a normalised default equal to the tag is not appended |
| I18n.LookupFirstHit | internal/i18n/i18n.go:159-166 | the message comes from the first chain language that has the code, or is the code itself when none has it |
| I18n.FirstHit | internal/i18n/i18n.go:159-165 | the first chain position whose language has the code: it has it and no earlier one does |
| I18n.MessageIsTranslationOrCode | internal/i18n/i18n.go:159-166 | lookup never fails: the result is a chain language's translation or the code |
| I18n.UpdateSetsOneEntry | internal/i18n/i18n.go:112-121 | after Update the normalised language maps the key to the value; every other entry is unchanged and no language is removed |
| I18n.LangFromContext | internal/i18n/i18n.go:133-140 | the result is normalised |
| I18n.ContextLangRoundTrip | internal/i18n/i18n.go:133-173 | a non-empty language stored by WithCtxLang is read back normalised; an empty one yields the default |
| I18n.ContextWithoutLang | internal/i18n/i18n.go:133-139 | without a non-empty string under langKey, the normalised default is used |
| I18n.Manager.constructor | internal/i18n/i18n.go:50-59 | no messages, default "en", supported ["en"], no language chosen |
| I18n.Manager.GetMessage | internal/i18n/i18n.go:150-167 | the loop returns the lookup along the chain of m.lang, or of defLang when m.lang is empty |
| I18n.Manager.Update | internal/i18n/i18n.go:112-121 | the messages become the single-entry update and nothing else changes |
| I18n.Manager.WithLang | internal/i18n/i18n.go:125-131 | stores the normalised language, from the context when one is given, and returns the same manager |
| ApiCommon.FinalSize | app/handler/api/common/api.go:261-265 | the stored size lies in 1..20 |
| ApiCommon.FinalSizeSpec | app/handler/api/common/api.go:261-265 | a size is kept exactly when it is in 1..20; normalising is idempotent |
| ApiCommon.Offset | app/handler/api/common/api.go:267-271 | the offset is an int64, 0 for an index <= 1, and non-negative while (index-1)*size fits in an int |
| ApiCommon.OffsetSpec | app/handler/api/common/api.go:267-271 | while (index-1)*size fits in an int, the offset is a non-negative multiple of the size |
| ApiCommon.OffsetWrapsNegative | app/handler/api/common/api.go:268-270 | a caller-supplied index past MaxInt64/size wraps the product: index 461168601842738792 with size 20 stores -9223372036854775796 |
| ApiCommon.Pagination | app/handler/api/common/api.go:255-272 | with a nil pointer nothing changes; otherwise size becomes FinalSize and index the wrapped Offset; when both point to one integer, the index read sees the new size |
| ApiCommon.Atoi | app/handler/api/common/api.go:243 | a parsed value lies in the int64 range |
| ApiCommon.ParseErrorCodeFlexible | app/handler/api/common/api.go:242-247 | a number exactly when Atoi succeeds; otherwise the code text itself |
| ApiCommon.FormattedCodeParses | app/handler/api/common/api.go:242-247 | every int64 printed in decimal is parsed back to that number |
| ApiCommon.DigitsRoundTrip | app/handler/api/common/api.go:243 | the decimal digits of a natural number read back as that number |
| ApiCommon.NonNumericCodeKept | app/handler/api/common/api.go:242-247 | a code with a non-digit after an optional sign stays text |
| ApiCommon.OutOfRangeCodeKept | app/handler/api/common/api.go:243-246 | a numeral beyond the int64 range stays text |
| ApiCommon.JoinErrKeepsEarlier | app/handler/api/common/api.go:107 | errors.Join keeps the earlier errors and adds the new one after them, printing them one per line |
| ApiCommon.MessageIsLeavesPerLine | app/handler/api/common/api.go:107 | a joined error prints every plain message, one per line, in order |
| ApiCommon.MessagesArePerLine | app/handler/api/common/api.go:107 | a list of joined errors prints every plain message, one per line, in order, and holds at least one |
| ApiCommon.Api.constructor | app/handler/api/common/api.go:103-108 | a new Api holds no error |
| ApiCommon.Api.AddError | app/handler/api/common/api.go:103-108 | nil changes nothing; any other error is joined onto Errors |
| ApiCommon.DefaultLanguage | app/handler/api/common/api.go:129-135 | the header, or "en" when it is empty |
| ApiCommon.DefaultEnv | app/handler/api/common/api.go:137-143 | the header, or "test" when it is empty |
| ApiCommon.HeaderDefaultsIdempotent | app/handler/api/common/api.go:129-143 | applying a default to its own result changes nothing |
| ApiCommon.NormalizeData | app/handler/api/common/api.go:164-182 | nil data and nil pointers, maps and interfaces become {}, a nil slice becomes []; other data is unchanged; the result is never nil |
| ApiCommon.NormalizeDataIdempotent | app/handler/api/common/api.go:164-182 | normalising twice is normalising once |
| ApiCommon.SendResponse | app/handler/api/common/api.go:164-191 | the response keeps code and message and carries non-nil data |
| ApiCommon.ErrorWithMsg | app/handler/api/common/api.go:223-225 | the code parsed flexibly, the message, empty data |
| MysqlLogger.DefaultedSpec | internal/database/mysql/logger.go:48-66 | the log file is "mysql.log" exactly when it was empty (or already that); with Rotate the zero limits become 100/7/30 and Compress is on, non-zero limits are kept; without Rotate only the log file may change; applying the defaults twice changes nothing more |
| MysqlLogger.LogConfig.constructor | internal/database/mysql/logger.go:48-66 | a record holding the given configuration |
| MysqlLogger.LogConfig.ApplyDefaults | internal/database/mysql/logger.go:48-66 | the record becomes Defaulted of what it was |
| MysqlLogger.MaskSQL | internal/database/mysql/logger.go:125-130 | the identity when masking is off |
| MysqlLogger.TraceBranchSpec | internal/database/mysql/logger.go:162-184 | silent writes nothing; otherwise a reportable error comes before a slow query, which comes before the info line |
| MysqlLogger.TraceLevelMonotone | internal/database/mysql/logger.go:163-183 | raising the level never silences a line; at Info every query is logged |
| MysqlLogger.ErrorLevelLogsOnlyErrors | internal/database/mysql/logger.go:170-171 | at Error level only reportable errors are logged |
| MysqlLogger.FileLogger.constructor | internal/database/mysql/logger.go:69-70 | NewLogger fills in the defaults |
| MysqlLogger.FileLogger.LogMode | internal/database/mysql/logger.go:144-147 | sets only the level and returns the receiver |
| MysqlLogger.FileLogger.Trace | internal/database/mysql/logger.go:162-184 | fc runs exactly once when a line is written and never otherwise; the line has the branch, the rows and the masked SQL |
| Mysql.DefaultLogFile | internal/database/mysql/mysql.go:59-64 | the Prod log file for "prod", the Test one otherwise |
| Mysql.DefaultDsn | internal/database/mysql/mysql.go:67-72 | the Prod DSN for "prod", the Test one otherwise |
| Mysql.DefaultsAgree | internal/database/mysql/mysql.go:59-72 | DSN and log file come from the same entry |
| Mysql.CutDsn | internal/database/mysql/mysql.go:52-56 | the slice contains no ')' |
| Mysql.CutDsnBetweenParens | internal/database/mysql/mysql.go:52-56 | user@tcp(host)rest gives exactly host |
| Mysql.CutDsnWithoutOpenParen | internal/database/mysql/mysql.go:53-55 | without '(' the DSN is cut before its first ')' |
| Mysql.Register | internal/database/mysql/mysql.go:47 | initMysql stores the engine under the environment and keeps the others |
| Mysql.SetUp | internal/database/mysql/mysql.go:18-23 | engines exist under "prod" and "test" only |
| Mysql.GetOrm | internal/database/mysql/mysql.go:75-80 | a known environment's engine, else the one registered under the Test DSN string, else nil |
| Environment.LookupOr | internal/database/redis/redis.go:50-56 | a registry lookup is nil exactly when neither the environment nor the fallback key is registered, and prefers the environment's own entry |
| Mysql.GetOrmUnknownEnvIsNil | internal/database/mysql/mysql.go:75-80 | after Setup an unknown environment gets nil |
| Mysql.GetOrmAfterSetUp | internal/database/mysql/mysql.go:75-80 | with the fallback key "test" instead of the Test DSN, every environment gets an engine after Setup: its own when known, the test one otherwise |
| GoInt.WrapInt64 | internal/database/redis/redis.go:77 | the int64 a Go product leaves: in int64 range, congruent to the exact product modulo 2^64, and equal to it when it fits |
| Redis.DefaultString | internal/database/redis/redis.go:59-64 | the default exactly when the value is empty (or equal to it), else the value |
| Redis.DefaultInt | internal/database/redis/redis.go:66-71 | the default when the value is <= 0, else the value |
| Redis.DefaultDuration | internal/database/redis/redis.go:73-78 | the default when the value is <= 0, else that many seconds, positive while it fits |
| Redis.DefaultsIdempotent | internal/database/redis/redis.go:59-71 | with a valid default, applying it twice changes nothing |
| Redis.HugeDurationWraps | internal/database/redis/redis.go:77 | 9223372037 seconds overflow the int64 nanosecond product and wrap negative |
| Redis.DefaultConfig | internal/database/redis/redis.go:80-85 | Test only for "test", Prod for everything else |
| Redis.ClientOptionsSpec | internal/database/redis/redis.go:25-30 | an empty address becomes 127.0.0.1:6379, a non-positive timeout 5s, a non-positive pool size 10; the credentials are kept |
| Redis.SetUp | internal/database/redis/redis.go:17-20 | clients exist under "prod" and "test" |
| Redis.RedisClient | internal/database/redis/redis.go:50-56 | a known environment's client; never nil while a test client is registered |
| Redis.RedisClientAfterSetUp | internal/database/redis/redis.go:50-56 | after Setup every environment gets a client, while the configuration falls back to Prod |
| TraceContext.WithTraceID | internal/database/context.go:10-12 | binds the ID under TraceIdKey and changes no other key |
| TraceContext.ExtractTraceID | internal/database/context.go:16-22 | the stored string, or "" |
| TraceContext.ExtractAfterWith | internal/database/context.go:10-22 | what is stored is extracted |
| TraceContext.LatestWins | internal/database/context.go:10-12 | the latest WithTraceID wins |
| TraceContext.OtherKeysInvisible | internal/database/context.go:16-21 | values under other keys do not affect the trace ID |
| TraceContext.AbsentKeyGivesEmpty | internal/database/context.go:16-21 | a context that never bound the key yields "" |
| TraceContext.NonStringGivesEmpty | internal/database/context.go:17-19 | a non-string value yields "" |

## Left out

- internal/retryx/pool.go is not part of this model. Its point is concurrency: goroutine workers, channels, a WaitGroup and a mutex.
- The clock, `rand.Float64`, the operation and the cancellation race are oracle parameters of `Retryx.Env`.
  - A jitter draw is modelled in thousandths.
  - `backoffFactor` is a whole multiplier (the source only ever uses 2.0).
  - `jitterFactor` is in thousandths.
  - Float arithmetic is replaced by integer arithmetic with truncation toward zero.
- `onRetry` is recorded as a list of notices rather than called.
- The database and cache work of app/dao/dao/dao.go is not modelled: `buildQuery`, `applyConditions`, `Create`, `Update`, `Delete`, `Restore`, `WithTx`, `cachedCount`, `PingDB`, `WaitDB` and `Transactional` are gorm and Redis I/O. A query's outcome is a parameter.
- `flattenSlice` uses reflection. A condition value is modelled as nil, a scalar or a list.
- Dao.PageWindow: the offset is stated as (page-1)*size. The fact that it is a multiple of the size is not restated with `%`.
- The whole of Text and every use of strings.ToLower/ToUpper map ASCII letters only. Go also maps other Unicode letters.
- HttpLogger.Mask: maskMap overwrites the decoded maps in place. The model returns a new tree, since a freshly decoded JSON document shares no structure.
- HttpLogger.MaskSensitive: `json.Unmarshal` and `json.Marshal` are a codec parameter. Map iteration order and number formatting are not modelled.
- The rest of `GinzapWithBody` and `RecoveryWithZap` are not modelled: request plumbing, zap output and panic recovery.
- The error from the wrapped ResponseWriter is not modelled. `BodyLogWriter.Write` returns the full length.
- HttpLogger.Truncate requires `max >= 0`: with a negative maxBodySize the Go slice expression panics.
- i18n.go: `Setup`, `loadFiles` and `LoadFiles` read files. The manager's mutex is concurrency. `Msg` is `GetMessage` under another name.
- ApiCommon.DefaultLanguage: `i18n.En` is declared outside the files modelled here. The model takes it to be "en".
- `Bind`, `WithContext`, `WithLogger`, `SuccessWithCode` and the other response senders are not modelled: gin and validator I/O. The JSON write of `sendResponse` is left out as well. The data normalisation and the response value are modelled.
- MysqlLogger.MaskSQL: the regular-expression replacement used when masking is on is a function parameter.
- The logger's `printf` output, the caller lookup and the log-file opening in `NewLogger` are I/O.
- The float latency in milliseconds is not modelled. The elapsed time is kept in nanoseconds.
- `initMysql`, `initRedis`, the Redis ping and hook, and `GetCurrentDatabase` open connections. Only their effect on the registries is modelled.
- Mysql.CutDsn requires a ')' at or after the start index: otherwise the Go slice expression panics.

## Findings

| source | as written | input that shows it | evidently intended | confidence | as-written member | corrected member |
|---|---|---|---|---|---|---|
| app/middleware/logger/logger.go:163-189 | the response capture holds at most maxBodySize bytes, so `len(peekResp) > maxBodySize` never holds and a long response is cut without "...(truncated)" | a 3-byte response "abc" with maxBodySize 2 is logged "ab"; the same request body is logged "ab...(truncated)" | capture maxBodySize + 1 bytes, as the request side reads, so a longer response is marked | high, not executed | HttpLogger.ResponseNeverMarked | HttpLogger.ResponseTruncation |
| internal/database/mysql/mysql.go:75-80 | the fallback looks up `engines[config.MysqlConfig.Test.Dsn]`, but engines are registered under "prod" and "test" | after Setup, `GetOrm("staging")` returns nil for any Test DSN other than "prod" or "test" | fall back to the "test" engine, as RedisClient does | medium, not executed | Mysql.GetOrmUnknownEnvIsNil | Mysql.GetOrmAfterSetUp |
