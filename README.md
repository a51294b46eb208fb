# Cats API app — a Dafny model of its core

This project models the core of the Cats API React Native app:

- **Card checks.** The Luhn and expiry checks (`validation.ts`), the link-card form rules (`cardFormRules.ts`), and the card-number and expiry formatters and submit step of the link-card hook (`useLinkCard.ts`).
- **Errors and logging.** The application error classes and their JSON form (`AppErrors.ts`), and the singleton logger (`Logger.ts`).
- **Favourites.** The persisted favourites list (`FavoritesDataSource.ts` and `StorageRepositoryImpl.ts`), and the toggle use case that enforces the free limit of three favourites (`ToggleFavoriteUseCase.ts`).
- **Feed.** The paging and de-duplication of the infinite cat feed (`useCatFeed.ts`).
- **Keychain storage.** The single react-native-keychain slot behind `SecureStorageImpl.ts` and the token store.
- **Payments.** The mock payment processor, the payment repository, and the two tokenization use cases.
- **Native vaults.** The Android vault (AES-GCM envelope over preferences) and the iOS vault (Keychain items).

The model is organised as follows:

- **Pure code** becomes datatypes, functions and lemmas.
- **Code that changes state** becomes classes with `modifies` clauses:
  - the stores and vaults;
  - the logger singleton;
  - the toggle and tokenize use cases.
- **Stateful operations** are proved against specification functions: `StoredFavorites`, `StoredToken`, `Toggle`, `Replace`, `StoredValue` and `KeepFirst`.
- **Loops.** The Luhn check and the feed de-duplication keep their loops.

Platform services are abstract values with a round-trip hypothesis:

- JSON, Base64 and UTF-8 are a `Codec` with `RoundTrips`.
- AES-GCM is a `Cipher` with `CipherRoundTrips`.
- Base64's alphabet (section 4 of RFC 4648) has no ':'.

Outside inputs are parameters:

- I/O failures and Keychain statuses;
- initialisation vectors and UUID tokens;
- `Date.now()`, `Math.random()` and the current year and month.

A promise that rejects is an `Outcome` (`Resolved`/`Rejected`), or an `Either` whose `Left` is the thrown value.

Where the code and its documentation differ, the model follows the code:

- **Expiry without a slash.** `isValidExpiration` on a five-character string with no '/' parses the year from "20undefined", which gives 20.
- **Android envelope check.** Android's `decryptData` checks only that there are two parts, not that they are non-empty.

## Model

| member | source | states |
|---|---|---|
| Validation.IsValidLuhn | src/core/utils/validation.ts:5-26 | the loop over the digits from the right, doubling every second one, answers exactly `LuhnValid`: at least 13 digits and a sum divisible by 10 |
| Validation.LuhnIgnoresNonDigits | src/core/utils/validation.ts:6 | only the digits of the input matter; spaces, dashes and letters are dropped first |
| Validation.LuhnNeedsThirteenDigits | src/core/utils/validation.ts:7-9 | fewer than 13 digits, or no digits at all, is never valid |
| Validation.LuhnDetectsSingleDigitError | src/core/utils/validation.ts:13-25 | changing any one digit of a valid number makes it invalid |
| Validation.IsValidExpiration | src/core/utils/validation.ts:32-51 | a length other than 5 is invalid; a valid date has a month that parses into 1..12 |
| Validation.WellFormedExpiration | src/core/utils/validation.ts:35-48 | for "MM/YY" in digits: valid iff 1 <= MM <= 12 and (2000+YY, MM) is not before the current year and month |
| Validation.NoSlashParsesYearTwenty | src/core/utils/validation.ts:35-38 | without '/', the year text is "undefined" and `parseInt("20undefined")` is 20, so such an input is only valid up to year 20 |
| Validation.ExpirationParsesLeniently | src/core/utils/validation.ts:37-41 | `parseInt` stops at the first non-digit: "1a/25" reads as month 1 |
| Validation.ExpirationTestDatesJune | src/core/utils/validation.ts:41-50 | current or future dates pass in June 2025; past months, past years, month 00 and month 13 fail |
| Validation.ExpirationTestDatesDecember | src/core/utils/validation.ts:47-50 | in December 2025, 12/25 and 01/26 pass and 11/25 fails |
| Validation.ExpirationRejectsMalformed | src/core/utils/validation.ts:33-40 | "1225", "12/2025", "", "122" and "12-25" are rejected |
| Validation.ExpirationRejectsLetters | src/core/utils/validation.ts:40 | a month that is not a number is rejected |
| CardFormRules.NameRule | src/presentation/validation/cardFormRules.ts:12-16 | the name passes iff it has 3 to 50 characters; empty gives the required message |
| CardFormRules.CardNumberRule | src/presentation/validation/cardFormRules.ts:17-23 | passes iff the number without whitespace has exactly 16 characters |
| CardFormRules.CvvRule | src/presentation/validation/cardFormRules.ts:24-27 | passes iff the cvv is exactly three digits |
| CardFormRules.ExpirationRule | src/presentation/validation/cardFormRules.ts:28-34 | empty is required, a length other than 5 is a format error, otherwise passes iff `isValidExpiration` |
| CardFormRules.FormValidMeans | src/presentation/validation/cardFormRules.ts:11-35 | a valid form has a 16-character number, a 3-digit cvv, a 3–50 character name and a valid expiry |
| CardFormRules.CardNumberRuleIgnoresContent | src/presentation/validation/cardFormRules.ts:19-22 | any 16 non-space characters pass, digits or not |
| LinkCard.FormatCardNumber | src/presentation/hooks/useLinkCard.ts:21-25 | the formatted number has at most 19 characters |
| LinkCard.FormatCardNumberGroupsFirstSixteen | src/presentation/hooks/useLinkCard.ts:21-25 | the output is the first 16 digits typed, in groups of four separated by single spaces |
| LinkCard.FormatCardNumberShape | src/presentation/hooks/useLinkCard.ts:23-24 | the output is digits with a space after every fourth, and nothing else |
| LinkCard.FormatCardNumberKeepsDigits | src/presentation/hooks/useLinkCard.ts:22-24 | stripping the spaces gives back the first 16 digits typed |
| LinkCard.FormatCardNumberIdempotent | src/presentation/hooks/useLinkCard.ts:21-25 | formatting a formatted number changes nothing |
| LinkCard.Group4Length | src/presentation/hooks/useLinkCard.ts:23 | grouping n digits yields n + (n-1)/4 characters |
| LinkCard.FormatExpiration | src/presentation/hooks/useLinkCard.ts:27-33 | the formatted expiry has at most 5 characters |
| LinkCard.FormatExpirationShort | src/presentation/hooks/useLinkCard.ts:27-33 | fewer than 3 digits are returned as they are, without '/' |
| LinkCard.FormatExpirationShape | src/presentation/hooks/useLinkCard.ts:29-32 | 3 or more digits become two digits, '/', and the next one or two digits |
| LinkCard.FormatExpirationIdempotent | src/presentation/hooks/useLinkCard.ts:27-33 | formatting a formatted expiry changes nothing |
| LinkCard.FormattedExpirationCheck | src/presentation/hooks/useLinkCard.ts:27-33 | a formatted expiry from 4 or more digits is checked as month and year of those digits |
| LinkCard.SubmitPayload | src/presentation/hooks/useLinkCard.ts:34-44 | the number sent is the typed number with every whitespace character removed; the holder is the name upper-cased character by character; cvv and expiry unchanged |
| LinkCard.SubmitIgnoresWhitespace | src/presentation/hooks/useLinkCard.ts:35 | whitespace inserted anywhere in the number sends the same card, and a number without whitespace is sent as typed |
| LinkCard.FormatThenSubmit | src/presentation/hooks/useLinkCard.ts:21-44 | a number typed through the formatter reaches the service as its first 16 digits |
| LinkCard.ValidFormPayload | src/presentation/hooks/useLinkCard.ts:35-44 | a valid form sends a 16-character number and a 3-digit cvv |
| LinkCard.FormattedNumberPassesRule | src/presentation/hooks/useLinkCard.ts:21-25 | a formatted number passes the 16-digit rule iff at least 16 digits were typed |
| LinkCard.FailureMessage | src/presentation/hooks/useLinkCard.ts:52 | an `Error` shows its own message; anything else shows the default text |
| LinkCard.SubmitAlert | src/presentation/hooks/useLinkCard.ts:38-55 | success shows the linked-card alert and goes back; failure shows the rejection alert with the failure message |
| AppErrors.SeverityTextRoundTrip | src/domain/entities/AppErrors.ts:2-7 | every severity's text reads back as that severity |
| AppErrors.NewAppError | src/domain/entities/AppErrors.ts:17-36 | fields are as given; userMessage falls back to the message when missing or empty |
| AppErrors.Overlay | src/domain/entities/AppErrors.ts:108 | the extra metadata wins on shared keys, the base keeps the others, and the keys are the union |
| AppErrors.NetworkError | src/domain/entities/AppErrors.ts:53-66 | ERR_NETWORK_001, HIGH, default message "Connection error" |
| AppErrors.PaymentError | src/domain/entities/AppErrors.ts:69-82 | ERR_PAYMENT_001, HIGH, default message "Payment was declined" |
| AppErrors.LimitReachedError | src/domain/entities/AppErrors.ts:85-94 | ERR_LIMIT_001, MEDIUM, always "Free favorites limit reached", no metadata |
| AppErrors.ValidationError | src/domain/entities/AppErrors.ts:97-111 | ERR_VALIDATION_001, LOW; metadata is {field} overlaid by the extra metadata |
| AppErrors.AuthenticationError | src/domain/entities/AppErrors.ts:114-127 | ERR_AUTH_001, HIGH, default message "Authentication failed" |
| AppErrors.StorageError | src/domain/entities/AppErrors.ts:130-144 | ERR_STORAGE_001, MEDIUM, default message "Storage operation failed"; metadata is {operation} overlaid by the extra metadata: its keys are "operation" plus the extra keys, every extra key keeps its value, and "operation" is the given one (or undefined) unless the extra metadata names it |
| AppErrors.ApiError | src/domain/entities/AppErrors.ts:147-162 | ERR_API_001, HIGH; metadata is {statusCode, endpoint} overlaid by the extra metadata: its keys are those two plus the extra keys, every extra key keeps its value, and statusCode and endpoint are the given ones (or undefined) unless the extra metadata names them |
| AppErrors.ValidationMetadataOverlay | src/domain/entities/AppErrors.ts:108 | extra metadata keeps the field unless it names "field" itself, which then wins |
| AppErrors.StorageAndApiMetadata | src/domain/entities/AppErrors.ts:141-159 | storage metadata is exactly {operation}; API metadata is exactly {statusCode, endpoint} |
| AppErrors.ToJSON | src/domain/entities/AppErrors.ts:38-49 | the JSON has exactly the keys name, code, message, userMessage, severity, metadata and timestamp |
| AppErrors.ToJSONRoundTrip | src/domain/entities/AppErrors.ts:38-49 | the JSON determines the error: reading it back gives the same error |
| AppErrors.Throw | src/domain/entities/AppErrors.ts:17-36 | thrown, an application error is an `Error` carrying its message |
| Logging.MergeConfig | src/core/utils/Logger.ts:35-43 | every field given in the partial config wins; every field not given keeps its default |
| Logging.ErrorAlwaysLogged | src/core/utils/Logger.ts:77-80 | ERROR passes whatever the minimum level |
| Logging.ShouldLogMonotone | src/core/utils/Logger.ts:76-81 | a level at or above a passing level passes, and the minimum level itself passes |
| Logging.Logger.constructor | src/core/utils/Logger.ts:35-43 | the config is the defaults merged with the given partial config |
| Logging.Logger.Log | src/core/utils/Logger.ts:54-74 | there is output iff the level passes and the console is on; it is the rendered entry, sent to the level's console method |
| Logging.LoggerRegistry.GetInstance | src/core/utils/Logger.ts:46-51 | the first call creates the logger with its config; later calls return that same logger |
| Logging.GetInstanceTwice | src/core/utils/Logger.ts:46-51 | two calls return one logger, configured by the first call's argument only |
| Logging.PrettyPrefixShowsLevelAndContext | src/core/utils/Logger.ts:84-89 | with a context, the trimmed prefix contains the upper-cased level and "[context]" |
| Logging.PrettyPrefixWithoutContext | src/core/utils/Logger.ts:84-89 | without timestamp and context, the prefix is just the upper-cased level |
| Favorites.WithFavorite | src/data/datasources/FavoritesDataSource.ts:25-31 | the cat's id is present afterwards; the old list is a prefix; the list grows by one iff the id was absent, and the element added is the cat itself |
| Favorites.WithoutId | src/data/datasources/FavoritesDataSource.ts:33-37 | the id is gone; exactly the cats with other ids are kept |
| Favorites.WithoutIdAppend | src/data/datasources/FavoritesDataSource.ts:35 | filtering distributes over concatenation |
| Favorites.WithoutAbsentId | src/data/datasources/FavoritesDataSource.ts:35 | removing an absent id leaves the list unchanged |
| Favorites.WithFavoriteIdempotent | src/data/datasources/FavoritesDataSource.ts:27-28 | saving the same cat twice equals saving it once |
| Favorites.WithFavoriteKeepsUnique | src/data/datasources/FavoritesDataSource.ts:27-29 | saving keeps ids unique |
| Favorites.WithoutIdKeepsUnique | src/data/datasources/FavoritesDataSource.ts:35 | removing keeps ids unique |
| Favorites.StoredFavorites | src/data/datasources/FavoritesDataSource.ts:15-23 | a read failure or a missing key reads as the empty list |
| Favorites.StoredAfterWrite | src/data/datasources/FavoritesDataSource.ts:15-31 | a list written under "@favorites_v1" reads back unchanged |
| Favorites.FavoritesStore.constructor | src/data/datasources/FavoritesDataSource.ts:12-13 | starts from the given storage and JSON codec |
| Favorites.FavoritesStore.GetFavorites | src/data/repositories/StorageRepositoryImpl.ts:12-20 | returns the stored list, or [] when the read fails or nothing is stored |
| Favorites.FavoritesStore.SaveFavorite | src/data/repositories/StorageRepositoryImpl.ts:22-29 | writes the list with the cat appended when its id is new; leaves storage alone when present or when the write fails |
| Favorites.FavoritesStore.RemoveFavorite | src/data/repositories/StorageRepositoryImpl.ts:31-35 | always writes the list without the id, unless the write fails |
| Favorites.SaveTwice | src/data/datasources/FavoritesDataSource.ts:25-31 | saving a cat twice stores it exactly once |
| Keychain.GenericPasswordSlot.SetGenericPassword | src/core/local/SecureStorageImpl.ts:5-7 | the one slot now holds the username and password, unless the call fails |
| Keychain.GenericPasswordSlot.GetGenericPassword | src/core/local/SecureStorageImpl.ts:9-20 | reads the slot, or rejects |
| Keychain.GenericPasswordSlot.ResetGenericPassword | src/core/local/SecureStorageImpl.ts:22-24 | empties the slot, unless the call fails |
| Keychain.SlotValue | src/core/local/SecureStorageImpl.ts:12-15 | there is a value iff the slot's username is the key, and it is the password |
| Keychain.SecureStorage.SetSecureValue | src/core/local/SecureStorageImpl.ts:5-7 | stores (key, value) as the slot's credentials |
| Keychain.SecureStorage.GetSecureValue | src/core/local/SecureStorageImpl.ts:9-20 | never rejects: a read error is null; otherwise the value stored under exactly this key |
| Keychain.SecureStorage.ClearSecureValue | src/core/local/SecureStorageImpl.ts:22-24 | ignores the key and empties the slot |
| Keychain.SetThenGet | src/core/local/SecureStorageImpl.ts:5-20 | a value set reads back |
| Keychain.SecondKeyEvictsFirst | src/core/local/SecureStorageImpl.ts:5-15 | with one slot, setting a second key makes the first read null |
| Keychain.ClearThenGet | src/core/local/SecureStorageImpl.ts:9-24 | after a clear, every key reads null |
| Keychain.StoredToken | src/data/repositories/StorageRepositoryImpl.ts:45-57 | a read failure or an empty slot is no token |
| Keychain.StoredTokenAfterSave | src/data/repositories/StorageRepositoryImpl.ts:40-57 | a saved token reads back unchanged |
| Keychain.TokenVault.SaveToken | src/data/repositories/StorageRepositoryImpl.ts:40-43 | the slot holds "auth_token" and the token's JSON, unless the write fails |
| Keychain.TokenVault.GetToken | src/data/repositories/StorageRepositoryImpl.ts:45-57 | returns the parsed slot password, or null on a read error or empty slot |
| Keychain.TokenVault.ClearToken | src/data/repositories/StorageRepositoryImpl.ts:59-61 | empties the slot, unless the call fails |
| Keychain.SaveThenGetToken | src/data/datasources/SecureStorageDataSource.ts:12-27 | a saved token reads back |
| Keychain.ClearThenGetToken | src/data/datasources/SecureStorageDataSource.ts:16-31 | after a clear there is no token |
| ToggleFavorite.Toggle | src/domain/usecases/ToggleFavoriteUseCase.ts:19-50 | a failure writes nothing; `false` means the cat was there and is removed; `true` means it was absent and is appended |
| ToggleFavorite.ToggleRemovesExisting | src/domain/usecases/ToggleFavoriteUseCase.ts:24-31 | an existing favourite is removed whatever the premium status and the later steps |
| ToggleFavorite.ToggleBlocksFreeUserAtLimit | src/domain/usecases/ToggleFavoriteUseCase.ts:40-43 | a free user with 3 or more favourites is refused with the limit message and nothing is written |
| ToggleFavorite.ToggleAddsNew | src/domain/usecases/ToggleFavoriteUseCase.ts:34-49 | a premium user, or a free user under the limit, gets the new cat appended |
| ToggleFavorite.ToggleShortCircuits | src/domain/usecases/ToggleFavoriteUseCase.ts:20-48 | the first failing repository step's failure is returned unchanged and nothing is written |
| ToggleFavorite.ToggleKeepsUniqueIds | src/domain/usecases/ToggleFavoriteUseCase.ts:19-50 | whatever is written keeps the ids unique |
| ToggleFavorite.ToggleKeepsFreeLimit | src/domain/usecases/ToggleFavoriteUseCase.ts:40-49 | a free user within the limit stays within it |
| ToggleFavorite.ToggleTwiceRestores | src/domain/usecases/ToggleFavoriteUseCase.ts:24-49 | adding then toggling the same cat gives back the original list |
| ToggleFavorite.FreeTierScenario | src/domain/usecases/ToggleFavoriteUseCase.ts:7-49 | a free user adds three distinct cats and is refused a fourth |
| ToggleFavorite.ToggleFavoriteUseCase.constructor | src/domain/usecases/ToggleFavoriteUseCase.ts:9-13 | holds the favourites store and the token vault |
| ToggleFavorite.ToggleFavoriteUseCase.Execute | src/domain/usecases/ToggleFavoriteUseCase.ts:19-50 | returns `Toggle`'s result on the stored list and premium status, and the store holds what `Toggle` writes |
| CatFeed.NextPageParam | src/presentation/hooks/useCatFeed.ts:22-27 | no next page after an empty page; otherwise the next page is the number of pages loaded |
| CatFeed.Loaded | src/presentation/hooks/useCatFeed.ts:16-27 | after n fetches the feed holds at least one and at most n + 1 pages |
| CatFeed.LoadedInOrder | src/presentation/hooks/useCatFeed.ts:16-27 | the k-th page held is the API's page k; only the last page can be empty; loading stops early only after an empty page |
| CatFeed.FlattenSnoc | src/presentation/hooks/useCatFeed.ts:35 | one more page appends its cats to the flattened list |
| CatFeed.KeepFirstSameIds | src/presentation/hooks/useCatFeed.ts:38-43 | the de-duplicated list has exactly the input's ids |
| CatFeed.KeepFirstUnique | src/presentation/hooks/useCatFeed.ts:38-43 | no two cats shown share an id |
| CatFeed.KeepFirstKeepsFirstOccurrence | src/presentation/hooks/useCatFeed.ts:38-43 | each cat shown is the first cat of the input with its id |
| CatFeed.KeepFirstOfUnique | src/presentation/hooks/useCatFeed.ts:38-45 | without repeated ids, the feed is the input itself |
| CatFeed.KeepFirstExtends | src/presentation/hooks/useCatFeed.ts:31-46 | more cats never drop or reorder the cats already shown |
| CatFeed.FeedGrowsAtEnd | src/presentation/hooks/useCatFeed.ts:22-46 | loading a page keeps the shown feed as a prefix |
| CatFeed.FeedCats | src/presentation/hooks/useCatFeed.ts:31-46 | [] without data; otherwise the pages flattened, keeping the first cat of each id in order |
| Payment.ProcessPayment | src/data/remote/PaymentMockService.ts:4-26 | rejects with the bank message iff the stripped number starts with "0000"; otherwise a "tok_live_" token |
| Payment.ProcessPaymentReadsOnlyNumber | src/data/remote/PaymentMockService.ts:9-12 | cards with the same stripped number get the same answer; cvv, expiry and holder are ignored |
| Payment.AccessTokenShape | src/data/remote/PaymentMockService.ts:18-21 | the token is "tok_live_", the random part, "_" and the time, which parses back from its tail |
| Payment.ToPaymentError | src/data/repositories/PaymentRepositoryImpl.ts:11-14 | every failure is a PaymentError; an Error keeps its message, anything else gets "Payment was declined" |
| Payment.TokenizeCard | src/data/repositories/PaymentRepositoryImpl.ts:6-15 | a token is passed through unchanged; a failure becomes its PaymentError |
| Payment.MockTokenizeCard | src/data/repositories/PaymentRepositoryImpl.ts:6-15 | over the mock, a declined card is a PaymentError with the bank's message and any other card gets a "tok_live_" token |
| Payment.TokenizeCardNumber | src/domain/usecases/TokenizeCardUseCase.ts:10-15 | fewer than 16 characters fails with "Invalid Card Number"; otherwise the wallet's answer for the unchanged number |
| Payment.ShortNumberSkipsWallet | src/domain/usecases/TokenizeCardUseCase.ts:11-13 | a refused number never reaches the wallet |
| Payment.TokenizePaymentMethodUseCase.constructor | src/domain/usecases/TokenizePaymentMethodUseCase.ts:6-8 | holds the token store |
| Payment.TokenizePaymentMethodUseCase.Execute | src/domain/usecases/TokenizePaymentMethodUseCase.ts:10-19 | tokenizes once; a failure is rethrown and nothing is saved; on success that token is saved and returned, unless the save fails, which is rethrown |
| Payment.PayThenReadToken | src/domain/usecases/TokenizePaymentMethodUseCase.ts:10-19 | after a payment the stored token is the one returned |
| AndroidVault.DecodeEnvelope | android/app/src/main/java/com/catsapiapp/modules/SecureVaultModule.kt:131-135 | a string that does not split into exactly two parts on ':' is rejected |
| AndroidVault.EnvelopeRoundTrip | android/app/src/main/java/com/catsapiapp/modules/SecureVaultModule.kt:114-135 | "iv:ciphertext" in Base64 parses back to the same pair |
| AndroidVault.ExtraColonRejected | android/app/src/main/java/com/catsapiapp/modules/SecureVaultModule.kt:132-133 | three parts, or one, are rejected |
| AndroidVault.Encrypt | android/app/src/main/java/com/catsapiapp/modules/SecureVaultModule.kt:114-129 | encryption succeeds iff the key alias exists |
| AndroidVault.Decrypt | android/app/src/main/java/com/catsapiapp/modules/SecureVaultModule.kt:131-149 | no key or a malformed envelope gives no value |
| AndroidVault.DecryptEncrypt | android/app/src/main/java/com/catsapiapp/modules/SecureVaultModule.kt:114-149 | decrypting an encryption gives back the plain text |
| AndroidVault.StoredValue | android/app/src/main/java/com/catsapiapp/modules/SecureVaultModule.kt:70-82 | a key never stored is null |
| AndroidVault.AndroidSecureVault.constructor | android/app/src/main/java/com/catsapiapp/modules/SecureVaultModule.kt:28-33 | creates the key when the alias is absent |
| AndroidVault.AndroidSecureVault.CreateKeyIfNotExists | android/app/src/main/java/com/catsapiapp/modules/SecureVaultModule.kt:35-56 | generates the key only when the alias is absent |
| AndroidVault.AndroidSecureVault.SetSecureValue | android/app/src/main/java/com/catsapiapp/modules/SecureVaultModule.kt:59-67 | stores the envelope under the key and resolves true; a failure rejects "STORAGE_ERROR" |
| AndroidVault.AndroidSecureVault.GetSecureValue | android/app/src/main/java/com/catsapiapp/modules/SecureVaultModule.kt:70-82 | never rejects: any failure is null |
| AndroidVault.AndroidSecureVault.ClearSecureValue | android/app/src/main/java/com/catsapiapp/modules/SecureVaultModule.kt:85-92 | removes the key and resolves true, or rejects "STORAGE_ERROR" |
| AndroidVault.AndroidSecureVault.TokenizeCard | android/app/src/main/java/com/catsapiapp/modules/SecureVaultModule.kt:95-112 | stores the card's envelope under the token and resolves it; a failure rejects "TOKENIZATION_ERROR" |
| AndroidVault.SetSetGet | android/app/src/main/java/com/catsapiapp/modules/SecureVaultModule.kt:59-82 | the last value written is the one read |
| AndroidVault.ClearThenGet | android/app/src/main/java/com/catsapiapp/modules/SecureVaultModule.kt:70-92 | a cleared key reads null |
| AndroidVault.TokenizeThenRead | android/app/src/main/java/com/catsapiapp/modules/SecureVaultModule.kt:70-112 | the token reads back as the card number |
| AndroidVault.CreateKeyTwice | android/app/src/main/java/com/catsapiapp/modules/SecureVaultModule.kt:35-56 | initialising twice keeps the first key |
| IosVault.StoredValue | ios/CatsApiApp/SecureVaultModule.swift:71-96 | a missing item is nil; any other failure status rejects "KEYCHAIN_ERROR" |
| IosVault.StoredValueAfterWrite | ios/CatsApiApp/SecureVaultModule.swift:48-96 | a value written as UTF-8 reads back |
| IosVault.Replace | ios/CatsApiApp/SecureVaultModule.swift:56-62 | a successful add leaves the item set; a failed one leaves the store after the delete |
| IosVault.ReplaceLastWriteWins | ios/CatsApiApp/SecureVaultModule.swift:56-62 | without failures, the last write wins |
| IosVault.ReplaceAfterFailedDelete | ios/CatsApiApp/SecureVaultModule.swift:60-61 | after a failed delete, the add is a duplicate and the old value stays |
| IosVault.IosSecureVault.constructor | ios/CatsApiApp/SecureVaultModule.swift:5-6 | starts from the given Keychain items |
| IosVault.IosSecureVault.SecItemDelete | ios/CatsApiApp/SecureVaultModule.swift:60 | removes the account's item, reporting whether it existed |
| IosVault.IosSecureVault.SecItemAdd | ios/CatsApiApp/SecureVaultModule.swift:61 | adds a new item; an existing account is a duplicate |
| IosVault.IosSecureVault.DeleteThenAdd | ios/CatsApiApp/SecureVaultModule.swift:60-61 | the result is `Replace` |
| IosVault.IosSecureVault.SetSecureValue | ios/CatsApiApp/SecureVaultModule.swift:48-68 | resolves true iff the add succeeds, otherwise rejects "KEYCHAIN_ERROR" |
| IosVault.IosSecureVault.GetSecureValue | ios/CatsApiApp/SecureVaultModule.swift:71-96 | answers `StoredValue` |
| IosVault.IosSecureVault.ClearSecureValue | ios/CatsApiApp/SecureVaultModule.swift:99-116 | both success and not-found resolve true |
| IosVault.IosSecureVault.TokenizeCard | ios/CatsApiApp/SecureVaultModule.swift:9-45 | stores the card number, unencrypted, under the token and resolves it; a failed add rejects |
| IosVault.SetSetGet | ios/CatsApiApp/SecureVaultModule.swift:48-96 | the last value written is the one read |
| IosVault.ClearTwice | ios/CatsApiApp/SecureVaultModule.swift:99-116 | clearing twice succeeds twice and the key reads nil |
| IosVault.TokenizeThenRead | ios/CatsApiApp/SecureVaultModule.swift:9-96 | the token reads back as the card number |

## Left out

**Platform and foreign code**
- Cryptography and platform libraries are abstract values with round-trip hypotheses:
  - AES-GCM;
  - the Android KeyStore;
  - Base64, UTF-8 and JSON;
  - UUID generation.
- The stored JSON is assumed to decode to a list or token, or to nothing. A stored value that parses to some other JSON value is not modelled.
- The Android `SecurePreferences` wrapper is not part of this model. It is the `prefs` map.
- `console` output is not modelled:
  - the native modules' and data sources' console prints;
  - the logger's actual console calls;
  - the ISO timestamp text;
  - `startTimer`.
- The logger's output is a record of console method, prefix and entry; the JSON log text is not modelled.
- The public `debug`/`info`/`warn`/`error` methods are not modelled separately. They call `Log` with a fixed level.

**Time and concurrency**
- The 2-second `setTimeout` latency in the mock payment service is not modelled. The clock and `Math.random` are parameters.
- Concurrency is not modelled. Calls are sequential, so interleaved read-modify-write of the favourites list is not captured.

**Text and numbers**
- Logging.UpperLevelText: `toUpperCase` is modelled on ASCII only; non-ASCII case mapping is not captured.
- LinkCard.SubmitPayload: likewise, the holder name is upper-cased on ASCII only.
- String lengths count characters, not UTF-16 code units.

**Errors**
- AppErrors.ToJSON: the `stack` property that `toJSON` also reports is not modelled.
- IosVault.StoredValue: rejections keep the error code only, not the message text.
- AndroidVault.AndroidSecureVault.SetSecureValue: likewise, only the code is kept.

**Wiring and rules not modelled**
- Favourites and tokens flow through plain-value repositories. `ToggleFavoriteUseCase` reads an `Either` from them, and the model follows its `Either` contract with failures injected as `Left` values. The app's dependency wiring, which hands it repositories returning plain values, is not modelled.
- Keychain.StoredToken: the token read does not check the slot's username, as in the source. A value stored by the keyed secure storage is then parsed as a token.
- IosVault.IosSecureVault.SecItemDelete: the Keychain delete query is taken to match the item by account.
- The iOS "ENCODING_ERROR" branch is not modelled. Encoding a Swift string as UTF-8 cannot fail, so the branch cannot be reached.
- Validation.IsValidLuhn: concrete card-number test vectors are not stated. The general properties are proved instead: digits only, at least 13, and any single-digit change is detected.
- `Logging.MergeConfig`: a key present in the partial config but set to `undefined` is treated as absent. In JavaScript the spread would copy the `undefined`.
- The `Cat` and `Breed` entity files are not part of this model. Cats are records with an id, a URL and breeds.
- Not modelled:
  - UI screens and components;
  - react-query caching;
  - HTTP access;
  - dependency injection;
  - pass-through use cases and repositories.
