# Cnchi logging context, modelled in Dafny

Cnchi, the Antergos installer, enriches every log line through one
process-wide logging filter, `ContextFilter` (`cnchi/logging_utils.py`).
The filter stamps each record with a correlation id derived from a fresh
uuid, the reporter's address (`id`) and the install id (`install`). It
resolves those two ids once from the Antergos build server. It attaches
them to crash reports before they go to Bugsnag, and it builds the URL
that reports the install result.

The model keeps the filter's five fields (`id`, `install`, `api_key`,
`have_install_id`, `after_location_screen`) in a class whose methods update
them step by step, as the Python does. Each method is proved against a pure
specification function over a `ContextState` value. Properties that span
several calls are proved over arbitrary sequences of calls.

Files:

- `wrappers.dfy`: `Option`, for Python's `None`-or-value.
- `strings.dfy`: Python's `str.split` and `str.join` for a one-character
  separator, with the split/join round trip.
- `logging_utils.dfy`: the values, the specification functions, and the
  classes `ContextFilter`, `Singleton`, `LogRecord` and `Notification`.
- `lifecycle.dfy`: sequences of calls on the one filter and what stays true
  along them.

Inputs that come from outside the filter are parameters:

- the text of `str(uuid.uuid1())`;
- the line `get_bugsnag_api` reads from `/etc/raven.conf` (an `Option<string>`);
- the release stage `CNCHI_RELEASE_STAGE`;
- the combined outcome of `requests.get(...)`, `r.json()` and `json.loads(...)`.
  This is a `Fetch`: either `Failed` (anything raised) or `Decoded(info)`,
  where `info` is a dict or some other JSON value.

A Python value held in `id` or `install` is a `Value`. It is either `None`
(also what JSON `null` decodes to), a string, or another JSON value together
with the text `str()` gives for it.

Behaviour of the code that the model keeps, even where it may surprise a
reader:

- The no-op when the ids are already known comes BEFORE the location-screen
  flag is raised. So a call with `is_location_screen=True` after resolution
  leaves the flag alone.
- `have_install_id` becomes true in the development stage. It also becomes
  true when the reply's `ip` or `id` is JSON `null`. So "resolved" does not
  imply that both ids are non-`None` strings. The code is followed here.
- Without a usable API key outside the development stage, `get_url_for_id_request`
  gives `None`. Then `requests.get(None)` raises (the requests library rejects a
  URL without a scheme), so the fetch always takes the failure path. `Resolve`
  ignores the fetch outcome in that case.
- A key file whose line is empty gives the key `""`. That key is never `None`
  again, so it is never re-read, and resolution can never succeed outside the
  development stage (`Lifecycle.EmptyKeyNeverResolves`).
- The id request URL is literally `http://build.antergos.com/hook?cnchi=?<key>`.
  The `?` after `cnchi=` comes from `'?'.join`.

## Model

| member | source | states |
|---|---|---|
| `Strings.Split` | cnchi/logging_utils.py:59 | `str.split`: one more piece than separators, no piece holds the separator, and joining the pieces gives the input back |
| `Strings.SplitJoin` | cnchi/logging_utils.py:59-60 | joining separator-free pieces and splitting again returns exactly those pieces |
| `Strings.JoinCount` | cnchi/logging_utils.py:60 | joining n separator-free pieces puts exactly n - 1 separators in the text |
| `LoggingUtils.CorrelationIdShape` | cnchi/logging_utils.py:59-60 | the record's uuid splits at dashes into exactly uuid groups 3, 1, 2, 4 (group 0 dropped) and holds exactly three dashes |
| `LoggingUtils.IdRequestUrl` | cnchi/logging_utils.py:109-115 | no URL iff the key is `None` or empty or the stage is `development`; otherwise exactly `http://build.antergos.com/hook?cnchi=?` followed by the key |
| `LoggingUtils.InstallResultUrl` | cnchi/logging_utils.py:130-133 | a report is sent iff the id-request URL exists; its URL is that base, then `&install_id=`, the `str()` of `install`, `&result=` and the result |
| `LoggingUtils.Resolve` | cnchi/logging_utils.py:65-96 | no-op once resolved; key unchanged; flag raised iff location screen passed while unresolved; resolved afterwards iff already resolved, development stage, or a URL exists and the reply has both `ip` and `id`; development ids `0.0.0.0`/`development`; success takes `ip`/`id` from the reply; otherwise `install` is untouched and `id` changes only by the partial write when the reply has `ip` but no `id` |
| `LoggingUtils.BeforeNotify` | cnchi/logging_utils.py:117-120 | key and location flag unchanged; nothing changes unless the flag is up and the ids are unresolved; resolved afterwards iff already resolved, or the flag is up and the last-chance resolution succeeds |
| `LoggingUtils.ContextFilter.constructor` | cnchi/logging_utils.py:40-47 | `__new__` on the first call: both ids `None`, no key, both flags false |
| `LoggingUtils.ContextFilter.Initialize` | cnchi/logging_utils.py:52-56 | `__init__`: the key is taken from the key file only while it is `None`; nothing else changes |
| `LoggingUtils.ContextFilter.Filter` | cnchi/logging_utils.py:58-63 | always keeps the record; stamps it with the correlation id, the filter's `id` and `install`; the filter's fields are unchanged |
| `LoggingUtils.ContextFilter.GetAndSaveInstallId` | cnchi/logging_utils.py:65-96 | the new fields are `Resolve` of the old ones; a request goes out only when unresolved, outside development, and with a usable key, to the id-request URL |
| `LoggingUtils.ContextFilter.BugsnagBeforeNotifyCallback` | cnchi/logging_utils.py:117-126 | `None` in, `None` out, no state change and no request; otherwise the same notification is returned, the fields follow `BeforeNotify`, a request is attempted only when the flag is up and the ids are unresolved, and `user` is `{id, "Antergos User", install}` read after that resolution |
| `LoggingUtils.ContextFilter.SendInstallResult` | cnchi/logging_utils.py:128-135 | a report is sent iff the id-request URL exists, and its URL is `InstallResultUrl` of the current key and install id |
| `LoggingUtils.Singleton.constructor` | cnchi/logging_utils.py:38 | no instance exists at process start |
| `LoggingUtils.Singleton.NewContextFilter` | cnchi/logging_utils.py:40-56 | the first `ContextFilter()` creates a fresh filter with the initial fields and the key read; every later call returns that same object and only re-reads a still-missing key |
| `Lifecycle.ResolvedIsFinal` | cnchi/logging_utils.py:65-67 | after resolution, no sequence of calls changes `id`, `install`, `have_install_id` or the location flag |
| `Lifecycle.LocationFlagOneWay` | cnchi/logging_utils.py:69-70 | the location flag is never lowered, and if it is up after a sequence of calls that started with it down, some call passed `is_location_screen=True` while the ids were still unresolved |
| `Lifecycle.ApiKeyReadOnce` | cnchi/logging_utils.py:55-56 | once a key is known, no sequence of calls changes it |
| `Lifecycle.DevelopmentResolvesOnFirstCall` | cnchi/logging_utils.py:72-76 | in the development stage, the first resolution call sets the ids to `0.0.0.0`/`development`, and later calls keep them |
| `Lifecycle.EmptyKeyNeverResolves` | cnchi/logging_utils.py:105-115 | outside development, an empty key line means no sequence of calls ever resolves the ids |

## Left out

- The HTTP requests, `r.json()` and `json.loads`: they are network and
  foreign-library calls. Their combined outcome is the `Fetch` parameter.
  The `X-Cnchi-Installer` header carries `CNCHI_VERSION` and is not modelled.
- The reply to the result report in `send_install_result`: it is decoded and
  then ignored. So are the `except Exception` around it and the error log it
  writes. `SendInstallResult` only returns the URL it would request; as a
  total method it cannot raise.
- `uuid.uuid1()`: it is random and time-based. Its text is a parameter, and
  `Filter` requires that it splits into at least five dash-separated groups.
  Fewer groups would make `uid[4]` raise; the text of a uuid always has five.
- `get_bugsnag_api`: it reads a file. Its result is the `configKey`
  parameter; `.strip()` of the line is taken as already done.
- The `logging.getLogger().error(...)` calls and their message formatting:
  they only write to the log.
- `logging.Filter.__init__` and `super().__init__()`: they set the base class's
  `name`, which the filter never uses.
- Record and notification attributes other than `uuid`, `id`, `install` and `user`.
- Thread safety: the fields are shared without locking, and the model is
  sequential.
- The Python `str()` text of non-string JSON values is an input carried by
  `Value.Other`, not computed by the model.
