# Performance Lab: background job record and hero-image early hints, in Dafny

This project models two small parts of the Performance Lab WordPress plugin and proves
properties of them.

**The background job record** (`Perflab_Background_Job`, regenerate-existing-images module)
is a persisted unit of work. A job has a status, an attempt counter, an advisory lock
timestamp and an error payload, all kept in the job term's metadata. The class source is not
part of this model. Only what the job's test suite asserts is modelled:

- the six meta keys and five status tokens;
- `set_status` checks that the token is valid and returns a boolean;
- `should_run` is false only for a complete job;
- `set_error` stores the failure data and counts one attempt;
- `lock`, `unlock` and `get_start_time` write, clear and read the lock.

Module `BackgroundJob` has the constants, the `Status` enumeration and its token encoding, and
the class `Job`. Its methods update `status`, `attempts`, `lock` and `errors` in place.
`Job.TermMeta` is the view `get_term_meta` gives of those fields. Module `BackgroundJobTests`
turns each behavioural test of the suite into a verified method. Each makes the test's calls
on a fresh job and promises what the test asserts, for every job id, timestamp and payload.
The tests of the constants (lines 32-62 of the test file) have no method; the lemmas
`MetaKeysDistinct` and `StatusTokensDistinct` and the function `Token` state them.
`RepeatedErrors` is not a test of the suite: it is an extra property of `set_error`
(attempts add up over repeated failures, and the last payload wins).

**Hero Image Early Hints** (`modules/images/hero-image-early-hints/load.php`) works like
this. While a user who can edit posts renders a page, the first image that is not
lazy-loaded counts as the hero image. Its `src` is saved in the option
`'perflab_hieh_' . md5( uri )`. Later front-end requests for that URI read the option and
announce the URL in a 103 Early Hints `Link` header. Module `HeroImageEarlyHints` has:

- the pure parts as functions: the context and lazy-image checks, the `src` capture of
  `/ src="([^"]+)/`, request-URI normalisation, the option key and the hint lookup;
- the image check as a state transition on a `DetectorState` value;
- the class `HeroImageDetector`. It holds the global `$perflab_hieh_request_uri`, the
  registration of the two filters and the options table. Its methods follow the PHP
  functions step by step. Each is proved against the pure functions above.

Module `PhpStrings` writes out the PHP string built-ins these functions use:

- `empty()` on strings;
- `trim( $s, '/' )`;
- `strpos( ... ) === false`;
- ASCII case folding, as in a PCRE pattern with the `i` flag.

`md5` is a parameter of the detector (`md5: string -> string`). Each WordPress predicate is
a boolean or string input:

- `wp_lazy_loading_enabled` is `lazyLoadingEnabled`;
- `current_user_can( 'edit_posts' )` is `canEditPosts`;
- `is_admin()` and the three `defined()` checks together are `isBackendRequest`;
- `parse_url( home_url(), PHP_URL_PATH )` is `homePath`, with `None` for a non-string.

Behaviour that follows from the code as written, and is proved:

- The pattern `/ src="([^"]+)/` needs at least one non-quote character after ` src="`. So
  an empty `src=""` does not match, and the leftmost ` src="` that has a value is taken
  (`ExtractSrcSkipsEmptySrc`). The capture runs to the next `"` or to the end of the tag.
- Before the home path is compared with the URI, the slashes around the home path are
  trimmed. A request URI that starts with `/` therefore never loses the home path. Only its
  slashes are trimmed, so `/blog/post/` under home `/blog` is keyed as `blog/post`
  (`LeadingSlashKeepsHomePath`). The write path and the read path compute the key the same
  way, so detection and hinting still agree.
- A recorded `src` of `"0"` is stored, but `! $hero_img_url` treats it as false, so it is
  never announced (`DetectedHeroIsHinted`).

## Model

| member | source | states |
|---|---|---|
| `BackgroundJob.MetaKeysDistinct` | tests/modules/images/regenerate-existing-images/background-process/perflab-background-job-test.php:51-56 | The six meta keys (`perflab_job_name`, `_data`, `_attempts`, `_lock`, `_errors`, `_status`) are pairwise distinct. |
| `BackgroundJob.StatusTokensDistinct` | tests/modules/images/regenerate-existing-images/background-process/perflab-background-job-test.php:57-61 | The five status tokens (`perflab_job_queued`, `_running`, `_partial`, `_complete`, `_failed`) are pairwise distinct. |
| `BackgroundJob.Token` | tests/modules/images/regenerate-existing-images/background-process/perflab-background-job-test.php:57-61 | Every status is persisted as one of the five tokens. |
| `BackgroundJob.ParseStatus` | tests/modules/images/regenerate-existing-images/background-process/perflab-background-job-test.php:67-89 | A string is accepted exactly when it is one of the five tokens, and the status it is accepted as is persisted as that same string. |
| `BackgroundJob.TokenRoundTrip` | tests/modules/images/regenerate-existing-images/background-process/perflab-background-job-test.php:77-89 | Reading a persisted status gives the same status back, and two statuses with the same token are equal. |
| `BackgroundJob.WpError.AddData` | tests/modules/images/regenerate-existing-images/background-process/perflab-background-job-test.php:110-114 | After data is added under a code, the error reports that data for that code and the same data as before for every other code. |
| `BackgroundJob.WpError.GetErrorData` | tests/modules/images/regenerate-existing-images/background-process/perflab-background-job-test.php:110-114 | Gives data exactly for a code the error has data for, and that data. |
| `BackgroundJob.Job.constructor` | tests/modules/images/regenerate-existing-images/background-process/perflab-background-job-test.php:94-103 | A created job keeps its id, name and data. It starts queued with 0 attempts, no lock and no errors. |
| `BackgroundJob.Job.TermMeta` | tests/modules/images/regenerate-existing-images/background-process/perflab-background-job-test.php:123-124 | `get_term_meta( id, key, true )`: a key that is not one of the six job keys reads as empty. Only the lock and errors keys can be empty, and the status key always holds one of the five tokens. |
| `BackgroundJob.Job.GetAttempts` | tests/modules/images/regenerate-existing-images/background-process/perflab-background-job-test.php:124-127 | Returns the count persisted under the attempts key. |
| `BackgroundJob.Job.GetStartTime` | tests/modules/images/regenerate-existing-images/background-process/perflab-background-job-test.php:175-181 | Is absent exactly when the lock key is empty, and otherwise equals the timestamp persisted under the lock key. |
| `BackgroundJob.Job.ShouldRun` | tests/modules/images/regenerate-existing-images/background-process/perflab-background-job-test.php:133-151 | False if and only if the persisted status token is `perflab_job_complete`. |
| `BackgroundJob.Job.SetStatus` | tests/modules/images/regenerate-existing-images/background-process/perflab-background-job-test.php:67-89 | Returns true exactly for the five tokens, and that token is then the persisted status. No order between valid tokens is enforced, and a refused token leaves the status as it was. |
| `BackgroundJob.Job.SetError` | tests/modules/images/regenerate-existing-images/background-process/perflab-background-job-test.php:109-128 | Counts exactly one more attempt. The errors become the data the error carries under `perflab_job_failure`, replacing any earlier payload. |
| `BackgroundJob.Job.Lock` | tests/modules/images/regenerate-existing-images/background-process/perflab-background-job-test.php:157-162 | The lock becomes the given timestamp. |
| `BackgroundJob.Job.Unlock` | tests/modules/images/regenerate-existing-images/background-process/perflab-background-job-test.php:163-165 | The lock becomes empty, whatever it was before. |
| `BackgroundJobTests.SetStatusFalseForInvalidStatus` | tests/modules/images/regenerate-existing-images/background-process/perflab-background-job-test.php:67-72 | On a fresh job, `set_status( 'invalid_status' )` returns false and the job stays queued. |
| `BackgroundJobTests.SetStatusTrueForValidStatuses` | tests/modules/images/regenerate-existing-images/background-process/perflab-background-job-test.php:77-89 | Running, then partial, then failed, then complete are each accepted on one job. |
| `BackgroundJobTests.CreateJob` | tests/modules/images/regenerate-existing-images/background-process/perflab-background-job-test.php:94-103 | For any name and data, a created job persists that name and data, is queued, has 0 attempts, no start time and no errors. |
| `BackgroundJobTests.SetError` | tests/modules/images/regenerate-existing-images/background-process/perflab-background-job-test.php:109-128 | For any error data and job data, after `set_error` the errors meta holds exactly the error's data and `get_attempts()` is 1. |
| `BackgroundJobTests.RepeatedErrors` | tests/modules/images/regenerate-existing-images/background-process/perflab-background-job-test.php:109-128 | Three `set_error` calls give 3 attempts, and the errors meta holds the last error's data. |
| `BackgroundJobTests.JobShouldRunForJob` | tests/modules/images/regenerate-existing-images/background-process/perflab-background-job-test.php:133-138 | A fresh job should run. |
| `BackgroundJobTests.JobShouldNotRunForCompletedJob` | tests/modules/images/regenerate-existing-images/background-process/perflab-background-job-test.php:143-151 | A job marked complete should not run. |
| `BackgroundJobTests.LockUnlock` | tests/modules/images/regenerate-existing-images/background-process/perflab-background-job-test.php:157-166 | For any timestamp, `lock` stores it under the lock key and the following `unlock` leaves that key empty. |
| `BackgroundJobTests.GetStartTime` | tests/modules/images/regenerate-existing-images/background-process/perflab-background-job-test.php:171-182 | For any timestamp, after `lock` the lock meta and `get_start_time()` both equal it. |
| `PhpStrings.TrimLeadingSlashes` | modules/images/hero-image-early-hints/load.php:99 | The result is a suffix of the input that does not start with '/', and everything removed is '/'. |
| `PhpStrings.TrimTrailingSlashes` | modules/images/hero-image-early-hints/load.php:99 | The result is a prefix of the input that does not end with '/', and everything removed is '/'. |
| `PhpStrings.TrimSlashes` | modules/images/hero-image-early-hints/load.php:103 | The result is a contiguous slice of the input with only '/' before it and only '/' after it. When non-empty it neither starts nor ends with '/'. |
| `PhpStrings.TrimSlashesKeepsUnslashed` | modules/images/hero-image-early-hints/load.php:103 | A string with no '/' at either end is left as it is. |
| `PhpStrings.TrimSlashesIdempotent` | modules/images/hero-image-early-hints/load.php:103 | Trimming twice gives the same result as trimming once. |
| `PhpStrings.TrimSlashesRemovesPadding` | modules/images/hero-image-early-hints/load.php:103 | Any number of slashes added at either end of an unslashed string are all removed. |
| `PhpStrings.ToLowerAscii` | modules/images/hero-image-early-hints/load.php:100 | An upper-case ASCII letter maps to the lower-case letter 32 code points above it (`A` to `a`). Every other character is left as it is. |
| `PhpStrings.IsEmpty` | modules/images/hero-image-early-hints/load.php:106 | PHP `empty()` on a string: true exactly for "" and "0". |
| `PhpStrings.EqualsIgnoreCase` | modules/images/hero-image-early-hints/load.php:100 | Two strings of equal length whose characters agree after ASCII lower-casing, as the `i` flag compares. |
| `PhpStrings.StartsWithIgnoreCase` | modules/images/hero-image-early-hints/load.php:100-102 | The anchored pattern `|^home|i` matches: the string begins with the home path, compared case-insensitively. |
| `PhpStrings.Contains` | modules/images/hero-image-early-hints/load.php:36 | `strpos( $s, $needle ) !== false`: the needle occurs at some position of the string. |
| `HeroImageEarlyHints.FirstSrcMatchFrom` | modules/images/hero-image-early-hints/load.php:41 | Returns the leftmost position at or after the start where ` src="` is followed by a non-quote character, or none if there is no such position. |
| `HeroImageEarlyHints.QuoteFreeRun` | modules/images/hero-image-early-hints/load.php:41 | The greedy `[^"]+` run: every character in it is not a quote, and it ends at a quote or at the end. |
| `HeroImageEarlyHints.SrcMatchesAt` | modules/images/hero-image-early-hints/load.php:41 | The pattern `/ src="([^"]+)/` can start its match at a position: ` src="` occurs there and is followed by a non-quote character. |
| `HeroImageEarlyHints.IsFirstSrcMatch` | modules/images/hero-image-early-hints/load.php:41 | The leftmost such position, where PCRE reports the match. |
| `HeroImageEarlyHints.CapturesAt` | modules/images/hero-image-early-hints/load.php:41 | What the greedy `([^"]+)` captures from a position: the quote-free run that ends at a quote or at the end of the tag. |
| `HeroImageEarlyHints.ExtractSrc` | modules/images/hero-image-early-hints/load.php:41 | Finds a src exactly when the pattern matches somewhere. The src found is non-empty, contains no quote, and is the capture at the leftmost match. |
| `HeroImageEarlyHints.ExtractSrcIsFirstCapture` | modules/images/hero-image-early-hints/load.php:41 | The capture at the leftmost match determines the result: any such capture is what `ExtractSrc` returns. |
| `HeroImageEarlyHints.CapturesUnique` | modules/images/hero-image-early-hints/load.php:41 | Two captures from the same position are the same string, so the greedy run is well defined. |
| `HeroImageEarlyHints.ExtractSrcSkipsEmptySrc` | modules/images/hero-image-early-hints/load.php:41 | In `<img src="" data src="hero.jpg">` the empty `src=""` is skipped and `hero.jpg` is captured. |
| `HeroImageEarlyHints.StripHomePrefix` | modules/images/hero-image-early-hints/load.php:100-102 | When the URI starts with the home path in any ASCII letter case, removes exactly as many characters as the home path has from its front. Otherwise the URI is kept whole. What remains is always the rest of the URI. |
| `HeroImageEarlyHints.StripHomePath` | modules/images/hero-image-early-hints/load.php:98-104 | For a non-empty home path, the result neither starts nor ends with '/'. `HomePathStripped` and `HomePathNotMatched` state what it contains. |
| `HeroImageEarlyHints.NormalizeRequestUri` | modules/images/hero-image-early-hints/load.php:95-108 | The result is never empty and never "0". Without a string, non-empty home path, a URI that PHP does not treat as empty is kept verbatim, and one it treats as empty becomes "/". With such a home path, the result is "/" or neither starts nor ends with '/'. `HomePathStripped`, `HomePathNotMatched` and `LeadingSlashKeepsHomePath` give the result exactly. |
| `HeroImageEarlyHints.HomePathStripped` | modules/images/hero-image-early-hints/load.php:98-108 | A URI that starts with the slash-trimmed home path, in any ASCII letter case, loses it once. Then its slashes are trimmed and an empty result becomes "/". |
| `HeroImageEarlyHints.HomePathNotMatched` | modules/images/hero-image-early-hints/load.php:98-108 | A URI that does not start with the slash-trimmed home path, in any ASCII letter case, keeps all of it. Only its slashes are trimmed, and an empty result becomes "/". |
| `HeroImageEarlyHints.LeadingSlashKeepsHomePath` | modules/images/hero-image-early-hints/load.php:98-108 | When the trimmed home path is non-empty, a URI starting with '/' never matches it (follows from `HomePathNotMatched`), so it keeps the home path and only has its slashes trimmed. |
| `HeroImageEarlyHints.OptionKey` | modules/images/hero-image-early-hints/load.php:42 | Every option key starts with `perflab_hieh_`. |
| `HeroImageEarlyHints.HeroHint` | modules/images/hero-image-early-hints/load.php:110-113 | A hint is given exactly when the option exists and is not "" or "0", and it is the option's value. |
| `HeroImageEarlyHints.IsDetectionContext` | modules/images/hero-image-early-hints/load.php:27 | The context is `the_content` or `the_post_thumbnail`. |
| `HeroImageEarlyHints.IsHeroCandidate` | modules/images/hero-image-early-hints/load.php:36 | The tag is not empty in the PHP sense and does not contain `loading="lazy"`. |
| `HeroImageEarlyHints.Qualifies` | modules/images/hero-image-early-hints/load.php:23-36 | The image check gets past all four of its guards. |
| `HeroImageEarlyHints.WritesOption` | modules/images/hero-image-early-hints/load.php:41-42 | The image qualifies and the pattern matches, so `update_option` is called. |
| `HeroImageEarlyHints.ImgTagCheckEffect` | modules/images/hero-image-early-hints/load.php:20-48 | Changes nothing if the request URI is unset, the context is neither `the_content` nor `the_post_thumbnail`, lazy loading is disabled, or the image is empty or contains `loading="lazy"`. A qualifying image switches both filters off whether or not a src is found. Only a matched src is written, under the key of the current URI. |
| `HeroImageEarlyHints.ImgTagCheckTouchesOneOption` | modules/images/hero-image-early-hints/load.php:41-42 | No option other than the one for the current URI is added, removed or changed. |
| `HeroImageEarlyHints.DetectedHeroIsHinted` | modules/images/hero-image-early-hints/load.php:42 | Once a src is recorded for a URI, the hint for that URI is that src, unless the src is the falsy "0". |
| `HeroImageEarlyHints.FilterStep` | modules/images/hero-image-early-hints/load.php:77-78 | One filter call: while the filters are registered, a qualifying image switches them off and anything else changes nothing. While they are removed, nothing changes. |
| `HeroImageEarlyHints.RenderEffect` | modules/images/hero-image-early-hints/load.php:36-46 | The filter calls of a page applied in order. The request URI never changes, and a page rendered without the filters changes nothing. |
| `HeroImageEarlyHints.CallQualifies` | modules/images/hero-image-early-hints/load.php:23-36 | A filter call's image passes the guards of the image check under a given request URI. |
| `HeroImageEarlyHints.IsFirstHeroCall` | modules/images/hero-image-early-hints/load.php:36-46 | A call is the first of the page whose image qualifies. |
| `HeroImageEarlyHints.RenderNoQualifying` | modules/images/hero-image-early-hints/load.php:20-48 | A page with no qualifying image leaves the state, and so every option, as it was. |
| `HeroImageEarlyHints.RenderRecordsFirstHero` | modules/images/hero-image-early-hints/load.php:36-46 | With the filters registered, a page has exactly the effect of the image check on its first qualifying image. That image's src is recorded under the current URI's key, or nothing when it has none, and the filters are removed for the rest of the page. |
| `HeroImageEarlyHints.RenderKeepsOtherOptions` | modules/images/hero-image-early-hints/load.php:41-42 | Over a whole page, no option other than the current URI's is added, removed or changed. |
| `HeroImageEarlyHints.HeroImageDetector.constructor` | modules/images/hero-image-early-hints/load.php:21-23 | At the start of a request the global request URI is unset, no filter is registered, no option has been written, and the options are those already stored. |
| `HeroImageEarlyHints.HeroImageDetector.AddHooks` | modules/images/hero-image-early-hints/load.php:73-79 | The filters are registered if and only if the user can edit posts (or they already were). |
| `HeroImageEarlyHints.HeroImageDetector.SendEarlyHintsHeader` | modules/images/hero-image-early-hints/load.php:87-113 | A back-end request changes nothing and sends no hint. A front-end request sets the global URI to the normalised URI and returns the option stored for it, if that option is truthy. |
| `HeroImageEarlyHints.HeroImageDetector.ImgTagCheck` | modules/images/hero-image-early-hints/load.php:20-49 | Returns the tag unchanged. The new state is the effect specified by `ImgTagCheckEffect`, and exactly one option write is counted when a src is recorded. |
| `HeroImageEarlyHints.HeroImageDetector.PostThumbnailHtmlCheck` | modules/images/hero-image-early-hints/load.php:59-61 | Behaves exactly as the image check in the `the_post_thumbnail` context. |
| `HeroImageEarlyHints.HeroImageDetector.ApplyFilter` | modules/images/hero-image-early-hints/load.php:77-78 | A registered filter runs the check for its hook. No state changes while the filters are removed. |
| `HeroImageEarlyHints.HeroImageDetector.RenderImages` | modules/images/hero-image-early-hints/load.php:36-46 | The new state is `RenderEffect` of the page's filter calls on the old state, so `RenderRecordsFirstHero` and `RenderNoQualifying` say what the current URI's option then holds. At most one option is written. Nothing is written while the filters are removed or the URI is unset, and no other URI's option changes. |
| `HeroImageEarlyHints.HandleRequest` | modules/images/hero-image-early-hints/load.php:73-113 | In one request at most one option is written. Without edit-posts, or on a back-end request, no option changes. A front-end request is hinted the option stored beforehand for its normalised URI. For an editor's front-end request, the options afterwards are those stored beforehand with the normalised URI's option set to the src of the first qualifying image. They are unchanged when that image has no src or when no image qualifies. |

## Assumptions

- `BackgroundJob.Job.SetStatus`: the tests only assert the false result. That a refused
  token leaves the status as it was is an assumption of this model.
- `BackgroundJob.Job.SetError`: when the error carries no data under `perflab_job_failure`,
  the model stores no errors. The tests do not cover this case.
- `BackgroundJob.Job.TermMeta`: the attempts key is read as 0 on a fresh job. This matches
  `get_attempts()` defaulting to 0.

## Left out

- Term-meta persistence, creating the `background_job` taxonomy term and `wp_delete_term` in
  teardown: the job's storage is `Job`'s fields, and `TermMeta` only gives the metadata view.
  A failed creation is left out because `perflab_create_background_job` is not part of this model.
- The class file `class-perflab-background-job.php` is not part of this model. Only what its tests assert is modelled.
- Races on the advisory lock: `lock` is a plain timestamp write, and the model has no concurrency.
- The HTTP output of `perflab_hieh_send_early_hints_header` is left out because it is I/O:
  `status_header( 103 )`, `header( 'Link: ...' )` and the `wp_headers`/`send_headers`
  closure that re-emits and removes headers. The method returns the URL that the `Link`
  header would carry.
- The WordPress calls are inputs, not models: `wp_lazy_loading_enabled`, `current_user_can`,
  `is_admin`, the `defined()` checks, `home_url` and `parse_url`. `get_option` and
  `update_option` are a string-to-string map.
- `md5` is a function parameter, because its definition does not affect any property.
- PHP strings are byte strings. The model uses `seq<char>` and folds case only for ASCII
  `A`-`Z`, as PCRE does under `i` without UTF-8 mode and without a locale.
- `preg_replace` returning null on a PCRE error is left out. The home-path pattern is
  anchored, quoted with `preg_quote` and free of such errors here.
- WordPress dispatching filters (`apply_filters`) is part of WordPress, not of this
  module. It appears only as `ApplyFilter` and `RenderImages`, so that "one write per
  request" can be stated. A direct call of the check while its filters are removed is not
  restricted, just as in PHP.
- `$_SERVER['REQUEST_URI']` is taken to be set; the case where it is missing is left out.
