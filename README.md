# gotify2telegram in Dafny

gotify2telegram forwards Gotify push messages to a Telegram chat. A listener
reads the Gotify message stream and drops messages from applications that the
whitelist or blacklist excludes. It resolves each application's name through a
cache and hands the message to the bridge. The bridge fills the title template
and joins the title and body. It looks for a verification code in the result
and, when it finds one, attaches a one-tap "copy" button. A message below the
length limit is sent as a Telegram text message; one at or over the limit is
sent as a `message.txt` document. The sender retries transport failures twice,
with exponential back-off.

The model has one module per source file, plus three support modules:

| module | file | models |
|---|---|---|
| `Text` | text.dfy | `extract_verification_code`. Each of the four regular expressions is a matcher that gives the same answer as Python's `re.search`. |
| `TextExamples` | text_examples.dfy | The examples from the extractor's docstring and the test message of `tools/test_send.py`, each proved to yield its code. |
| `Markup` | markup.dfy | `build_copy_code_markup`, with a reader that recovers the code from a keyboard. |
| `Config` | config.dfy | The YAML configuration as a Python value. Covers dotted lookup, validation, the filter lists, the admission rule, the defaults and the proxy dictionary. |
| `Sender` | sender.dfy | The retry loop of `_make_request` over the outcome of each POST, and the two request shapes. |
| `Bridge` | bridge.dfy | `str.format` for the title template, `compose_message`, and the routing of `send_message`. |
| `Listener` | listener.dfy | The `GotifyListener` class: its application-name cache, filtering, and the message loop. |
| `PyValues` | pyvalues.dfy | Support: Python values and truthiness, the `\d`/`\s`/`\w` character classes, `str.strip`, `str(int)` and `int()`. |
| `Utf8` | utf8.dfy | Support: UTF-8 encoding and decoding. |
| `Wrappers` | wrappers.dfy | Support: `Option`, `Result`, `Min`. |

Effects become values:
- The outcome of each POST is a list of `Outcome`s.
- The application list a fetch would return is an `Option` (`None` means the fetch raised).
- Whether the `socks` package can be imported is a boolean.
- The message stream is a finite sequence.

## Model

| member | source | states |
|---|---|---|
| Text.CodeAfter | core/utils/text.py:22 | `\D*([0-9]{4,8})` after a keyword: when it matches, group 1 is a code of 4 to 8 ASCII digits lying in the text at or after the keyword's end |
| Text.KeywordEndZh | core/utils/text.py:22 | The keyword alternation of pattern 1 ends after its start, within the text |
| Text.KeywordFirstZhAt | core/utils/text.py:22 | Pattern 1 tried at a position yields a code found after that position |
| Text.DigitsFirstZhAt | core/utils/text.py:25 | Pattern 2 tried at a position yields a code that starts exactly there |
| Text.KeywordFirstEnFrom | core/utils/text.py:27 | Pattern 3 tried at a position yields a code found after that position |
| Text.KeywordEndEn | core/utils/text.py:27 | The English keyword alternation ends after its start, within the text |
| Text.DigitsFirstEnAt | core/utils/text.py:29 | Pattern 4 tried at a position yields a code that starts exactly there |
| Text.MatchAt | core/utils/text.py:19-30 | Any pattern of the list, tried at a position, yields a code at or after it |
| Text.SearchFrom | core/utils/text.py:33 | `re.search` from a position yields a code at or after it |
| Text.FirstMatch | core/utils/text.py:32-38 | The pattern loop yields a code of the text |
| Text.ExtractVerificationCode | core/utils/text.py:5-40 | The result is 4 to 8 ASCII digits and is a substring of the text |
| Text.DigitRunMaximal | core/utils/text.py:22 | The greedy `[0-9]` run is all digits and is not followed by a digit |
| Text.NonDigitRunMaximal | core/utils/text.py:22 | The greedy `\D*` run holds no decimal digit and stops at one or at the end |
| Text.LiteralAtIgnoreCaseIs | core/utils/text.py:27 | Under `(?i)` a keyword occurs at a position exactly when each character there case-folds to the keyword's letter |
| Text.SearchFromLeftmost | core/utils/text.py:33 | `re.search` reports the match at the leftmost position where the pattern matches |
| Text.SearchFromNone | core/utils/text.py:33-35 | A search finds nothing exactly when the pattern matches at no position |
| Text.FirstMatchOrder | core/utils/text.py:32-38 | The first pattern of the list that matches decides the result, whatever later patterns would find |
| Text.FirstMatchNone | core/utils/text.py:32-40 | The loop finds nothing exactly when no pattern matches |
| Text.ExtractByKeywordFirstZh | core/utils/text.py:22 | When pattern 1 matches, its group 1 is the result |
| Text.ExtractByDigitsFirstZh | core/utils/text.py:25 | When pattern 2 matches and pattern 1 does not, pattern 2's group 1 is the result |
| Text.ExtractByKeywordFirstEn | core/utils/text.py:27 | When pattern 3 is the first to match, its group 1 is the result |
| Text.ExtractByDigitsFirstEn | core/utils/text.py:29 | When only pattern 4 matches, its group 1 is the result |
| Text.ExtractNone | core/utils/text.py:32-40 | None is returned exactly when none of the four patterns matches anywhere |
| Text.NoFourDigitsNoCode | core/utils/text.py:19-30 | A text without four consecutive ASCII digits yields no code |
| Text.HitStartsWithDigit | core/utils/text.py:36 | Group 1 always starts on an ASCII digit of the text |
| Text.NoDigitsNoMatch | core/utils/text.py:19-30 | No pattern matches where no ASCII digit follows |
| Text.KeywordEndZhComplete | core/utils/text.py:22 | Each of the 20 keywords that pattern 1's alternation spells is recognised, and the match ends right after it |
| Text.KeywordEndZhSound | core/utils/text.py:22 | Whatever the matcher recognises is one of those keywords |
| Text.SuffixZhAtComplete | core/utils/text.py:25 | Each tail that pattern 2's trailing group spells is recognised |
| Text.SuffixZhAtSound | core/utils/text.py:25 | Whatever the tail matcher recognises is one of those tails |
| Text.NoKeywordZhAt | core/utils/text.py:22 | Pattern 1 cannot match at a character that starts none of its keywords |
| Text.NoDigitsFirstZhAtAscii | core/utils/text.py:25 | Pattern 2 cannot match where only ASCII follows |
| Text.AsciiTextNoZhMatch | core/utils/text.py:22-25 | In an all-ASCII text neither Chinese pattern matches, so only the English patterns can decide |
| TextExamples.ColonCodeExtracted | core/utils/text.py:10 | "验证码: 235658" yields 235658 |
| TextExamples.PhoneNumberCodeExtracted | core/utils/text.py:10 | "手机号验证码: 114614" yields 114614 |
| TextExamples.PayPalExtracted | core/utils/text.py:12 | "PayPal: 232148 是您的验证码" yields 232148 through pattern 2, after pattern 1 finds no digits |
| TextExamples.DynamicExtracted | core/utils/text.py:13 | "9580（动态验证码）" yields 9580 |
| TextExamples.RandomCodeExtracted | core/utils/text.py:15 | "短信随机码218271" yields 218271 |
| TextExamples.CodeWordExtracted | core/utils/text.py:16 | "code 123456" yields 123456 |
| TextExamples.OtpWordExtracted | core/utils/text.py:16 | "otp 654321" yields 654321 |
| TextExamples.VerificationCodeExtracted | core/utils/text.py:16 | "verification code: 112233" yields 112233 |
| TextExamples.UpperCaseExtracted | core/utils/text.py:27 | Under `(?i)`, "Your CODE 123456" yields 123456 |
| TextExamples.LongRunExtracted | core/utils/text.py:25 | A nine-digit run before 验证码 yields its last eight digits, because group 1 takes at most 8 |
| TextExamples.TwoNumbersExtracted | core/utils/text.py:32-38 | "code 1234, 5678是您的验证码" yields 5678: pattern 2 comes before the English pattern, which alone would give 1234 |
| TextExamples.TestMessageExtracted | tools/test_send.py:22-23 | The test message "【测试标题】验证码复制按钮\n账号中心，验证码：048460" yields 048460 |
| Markup.BuildCopyCodeMarkup | core/telegram/markup.py:4-11 | The keyboard has exactly the key `inline_keyboard`, holding one row with one button. The button has exactly the keys `text` and `copy_text`: the label is the code, and `copy_text` is `{text: code}` |
| Markup.CopiedCodeOfMarkup | core/telegram/markup.py:6-11 | The keyboard built for a code copies exactly that code |
| Markup.MarkupOfCopiedCode | core/telegram/markup.py:6-11 | Any value that reads as a copy-code keyboard is the keyboard built for its code |
| Markup.MarkupInjective | core/telegram/markup.py:4-11 | Different codes give different keyboards |
| Config.SplitOn | core/config.py:43 | `key.split('.')` yields at least one part, and no part contains the separator |
| Config.JoinSplit | core/config.py:43 | Joining the parts with the separator gives the key back |
| Config.Lookup | core/config.py:44-46 | The only error of `.get` along the path is indexing a non-dict |
| Config.NestedValue | core/config.py:42-47 | The value is never `{}` (it becomes None), and the only error is indexing a non-dict |
| Config.GetNestedValue | core/config.py:42-47 | The key-by-key loop computes the nested value |
| Config.LookupEmpty | core/config.py:46 | Once a key is missing, every later `.get` stays on `{}` |
| Config.LookupAppend | core/config.py:45-46 | Following a path is following its first part and then the rest from where that part ends |
| Config.NestedMissing | core/config.py:46-47 | A key missing at any level of a path of dicts gives None |
| Config.NestedPresent | core/config.py:42-47 | Where the whole path exists, the result is its end value, or None if that value is `{}` |
| Config.LookupOfPath | core/config.py:44-46 | Along an existing path the loop reaches its end value |
| Config.ValidateKeysOk | core/config.py:38-40 | Validation passes exactly when every required key holds a truthy value |
| Config.ValidateKeysMissing | core/config.py:38-40 | A reported missing key is a required key whose value is missing or falsy |
| Config.ValidateConfigOk | core/config.py:30-40 | The configuration is accepted exactly when bot token, chat id, server URL and client token are all truthy |
| Config.ToIntList | core/config.py:66-74 | The loop keeps what `int()` accepts and skips what it rejects |
| Config.ConvertedAppend | core/config.py:69-73 | Conversion works element by element, so the kept elements keep their order |
| Config.ConvertedMembers | core/config.py:69-73 | An integer is in the result exactly when some element converts to it |
| Config.ConvertedInts | core/config.py:69-71 | A list of integers comes back unchanged |
| Config.IntListNotList | core/config.py:68 | A value that is not a list gives the empty list |
| PyValues.IntToStringRoundTrip | core/config.py:71 | An integer written as text reads back through `int()` as itself |
| Config.FilterListPrimary | core/config.py:79 | `gotify.filter.<name>`, when set, alone decides the list |
| Config.FilterListFallback | core/config.py:80-82 | When `gotify.filter.<name>` is None, `gotify.<name>` is read instead |
| Config.RejectedWhy | core/config.py:92-106 | An id is rejected exactly when a whitelist exists and lacks it, or no whitelist exists and the blacklist has it |
| Config.WhitelistWins | core/config.py:102-103 | Under a non-empty whitelist the blacklist plays no part |
| Config.OrDefault | core/config.py:110 | `value or default` is one of its two operands, and is truthy exactly when one of them is, so a truthy default makes the result truthy |
| Config.MaxMessageLength | core/config.py:108-110 | The limit is always truthy |
| Config.MaxLengthZero | core/config.py:110 | A limit of 0 falls back to 4000, like a missing one |
| Config.MaxLengthSet | core/config.py:110 | A non-zero limit is used as it is |
| Config.TitleFormat | core/config.py:112-114 | The template is always truthy |
| Config.TitleFormatEmpty | core/config.py:114 | An empty template falls back to `[Gotify→{app_name}] - {title}` |
| PyValues.StripUnpadded | core/config.py:120 | `strip` leaves a string without outer whitespace unchanged |
| Config.ProxyUrl | core/config.py:116-121 | A proxy URL, when present, is non-empty and stripped of outer whitespace |
| Config.ProxyUrlOfText | core/config.py:118-121 | A text URL comes back stripped, and blank text means no proxy |
| Config.ProxyDictFor | core/config.py:123-140 | There is no dict and no error exactly when there is no URL. A dict maps `http` and `https` to the URL. An unsupported scheme is reported with the URL. A `socks5://` URL is refused exactly when the `socks` package is missing, and every other supported URL gets the dict |
| Config.NoProxy | core/config.py:124-126 | Without a proxy URL there is no proxy dict and no error |
| Config.HttpProxyAccepted | core/config.py:128-140 | An http or https proxy is always accepted, whether or not `socks` is installed |
| Config.HttpNotSocks | core/config.py:128-131 | An http(s) URL has a supported scheme and never takes the SOCKS5 branch |
| Sender.Deliver | core/telegram/sender.py:90-158 | 1 to 3 POSTs are made, with one sleep between each pair |
| Sender.DeliverShape | core/telegram/sender.py:90-158 | The sleep after attempt k lasts 2^k seconds. Success means the last POST got an ok reply, and every earlier attempt failed in a way that is retried |
| Sender.MakeRequest | core/telegram/sender.py:81-158 | The retry loop returns the verdict, the number of POSTs and the sleeps of the retry specification |
| Sender.FirstReplyDecides | core/telegram/sender.py:102-110 | The first JSON reply ends the loop with its own `ok`, after one POST |
| Sender.OtherErrorStops | core/telegram/sender.py:154-156 | An exception outside the requests family is not retried |
| Sender.AllTransientFails | core/telegram/sender.py:112-152 | Three transport failures give three POSTs, sleeps of 1 s and 2 s, and False |
| Sender.SentIff | core/telegram/sender.py:90-158 | Delivery succeeds exactly when some attempt gets an ok reply and every attempt before it failed in a way that is retried |
| Sender.TextMessageRequest | core/telegram/sender.py:160-167 | `sendMessage` with `chat_id` and `text`, and with `reply_markup` (the JSON of the keyboard) exactly when a keyboard is given |
| Sender.DocumentRequest | core/telegram/sender.py:170-180 | `sendDocument` uploads `message.txt` holding the UTF-8 bytes of the content, which decode back to the content. The caption is the title followed by ` [消息过长，以文件形式发送]`, and `reply_markup` is present exactly when a keyboard is given |
| Utf8.DecodeEncode | core/telegram/sender.py:173 | The UTF-8 bytes of the document decode back to the full message |
| Sender.SendTextMessage | core/telegram/sender.py:160-168 | The verdict is the retry loop's. The request is `sendMessage` with exactly `chat_id`, the message text, and the keyboard's JSON as `reply_markup` exactly when a keyboard is given |
| Sender.SendDocument | core/telegram/sender.py:170-181 | The verdict is the retry loop's. The request is `sendDocument` with `chat_id`, the caption title + ` [消息过长，以文件形式发送]`, `message.txt` holding the UTF-8 of the whole content, and the keyboard's JSON as `reply_markup` exactly when a keyboard is given |
| Bridge.CloseBracket | core/bridge/gotify_to_telegram.py:20 | The `]` that ends an index inside a field name is the first one, and none means there is none |
| Bridge.FieldNameEnd | core/bridge/gotify_to_telegram.py:20 | The end `str.format` finds for a field name is a `}` inside the template; the "unexpected '{'" error is reported only where a `{` follows |
| Bridge.FieldNameEndAt | core/bridge/gotify_to_telegram.py:20 | A field name free of `{`, `}`, `[`, `:` and `!` ends at the first `}` |
| Bridge.FieldNameOpenBrace | core/bridge/gotify_to_telegram.py:20 | A `{` met in a field name before anything ends it raises ValueError "unexpected '{' in field name" |
| Bridge.OpenBraceInField | core/bridge/gotify_to_telegram.py:20 | A template such as `{a{b}c}` fails with that ValueError, whatever follows |
| Bridge.FieldOf | core/bridge/gotify_to_telegram.py:20 | A field is filled by `app_name` or `title` exactly when it has that name |
| Bridge.ParseUnparse | core/bridge/gotify_to_telegram.py:20 | Every template written from literal text and the two fields reads back as exactly those pieces |
| Bridge.FormatUnparse | core/bridge/gotify_to_telegram.py:20 | Such a template formats to its text with the arguments inserted as they are |
| Bridge.RenderAppend | core/bridge/gotify_to_telegram.py:20 | Formatting works piece by piece |
| Bridge.LiteralPiecesText | core/bridge/gotify_to_telegram.py:20 | Text without braces formats to itself |
| Bridge.TitlePiecesText | core/bridge/gotify_to_telegram.py:20 | A template `head{app_name}mid{title}` with brace-free head and mid formats to `head + app_name + mid + title` |
| Bridge.DefaultTitle | core/config.py:114 | The default template gives `[Gotify→<app name>] - <title>` for every app name and title, braces in them included |
| Bridge.UnknownField | core/bridge/gotify_to_telegram.py:20 | A field with any other plain name raises KeyError with that name |
| Bridge.ComposeMessage | core/bridge/gotify_to_telegram.py:18-22 | This fails exactly when formatting fails. The first part is the formatted title, and the full message is that title, a blank line and the body |
| Bridge.CodeMarkup | core/bridge/gotify_to_telegram.py:26-27 | A keyboard is attached exactly when a code is found in the text, and it is the keyboard for that code |
| Bridge.PlanSend | core/bridge/gotify_to_telegram.py:24-33 | A message of the limit's length or more goes as a document whose caption title is the formatted title and whose content is the full message. A shorter one goes as a text message of the full message. Either way the keyboard comes from the full message |
| Bridge.LimitBoundary | core/bridge/gotify_to_telegram.py:29 | At limit = length + 1 the message is text, and at limit = length it is a document |
| Bridge.MarkupIndependentOfRoute | core/bridge/gotify_to_telegram.py:26-33 | The limit chooses the route only: the keyboard is the same either way |
| Bridge.MarkupFromWholeMessage | core/bridge/gotify_to_telegram.py:25-27 | With the default template, the code is looked for in the title line as well as in the body |
| Bridge.SendMessage | core/bridge/gotify_to_telegram.py:24-33 | A template error is the only failure, and the verdict is the retry loop's. A text plan sends `sendMessage` whose text is the full message; a document plan sends `sendDocument` whose caption starts with the formatted title and whose file decodes to the full message. Either way `reply_markup` is the JSON of the plan's keyboard, present exactly when a code was found |
| Listener.NameFromFirstMatch | core/gotify/listener.py:26-29 | The first application with the id gives the name |
| Listener.NameFromNoMatch | core/gotify/listener.py:28 | Without an application of that id, the name is `未知应用(<id>)` |
| Listener.Resolve | core/gotify/listener.py:20-34 | On a cache hit the cached name is returned, with no fetch and no change. A failed fetch gives `应用<id>` and caches nothing. A successful fetch caches the looked-up name under exactly that new key. Names already cached never change |
| Listener.AdmitIsAppAllowed | core/gotify/listener.py:51-59 | For an integer id the listener's filter agrees with the admission rule of `is_app_allowed` |
| Listener.AbsentIdAdmitted | core/gotify/listener.py:51 | A message without an integer id is never filtered |
| Listener.WhitelistShortCircuits | core/gotify/listener.py:52-55 | Under a non-empty whitelist the blacklist is not read, so an error in it does not matter |
| Listener.HandleStep | core/gotify/listener.py:48-76 | A message is dropped exactly when the filter rejects it. It is skipped exactly when reading the lists raises. Otherwise it is forwarded with its title and body (or "") and the resolved name. Only forwarding touches the cache, and cached names never change |
| Listener.RunAll | core/gotify/listener.py:47-76 | Every message of the stream gets exactly one handling |
| Listener.CachedNamesStay | core/gotify/listener.py:21-30 | Once a name is cached it never changes, however many messages follow |
| Listener.CachedNameUsed | core/gotify/listener.py:21-22 | A message whose id is cached is forwarded under the cached name, with no change to the cache |
| Listener.GotifyListener.constructor | core/gotify/listener.py:18 | The cache starts empty |
| Listener.GotifyListener.GetApplicationName | core/gotify/listener.py:20-34 | The returned name and the new cache are those of `Resolve` on the old cache |
| Listener.GotifyListener.HandleMessage | core/gotify/listener.py:48-76 | The handling and the new cache are those of `HandleStep` on the old cache |
| Listener.GotifyListener.Listen | core/gotify/listener.py:47-76 | The handlings and the final cache are those of `RunAll` over the whole stream |

## Left out

- PyValues.IsWordChar: `\b` in patterns 3 and 4 uses an approximation of Python's `\w`: ASCII letters, digits and `_`, every decimal digit, Latin-1, Latin Extended-A/B, basic Greek and Cyrillic, kana, CJK ideographs, Hangul syllables and full-width Latin letters. Letters and numbers of other scripts are not word characters in the model.
- PyValues.IsDecimal: `\d`/`\D` use the decimal-digit (Nd) blocks of Unicode 15.0. A Python built on another Unicode version may differ.
- Text.LiteralAtIgnoreCaseIs: `(?i)` is modelled as ASCII case folding plus Python's special folds for İ, ı, ſ and the Kelvin sign K. No other Unicode case pairs are modelled; the English keywords contain no other letters that have them.
- PyValues.ParseInt: `int()` on text accepts ASCII digits only. Python also accepts other Unicode decimal digits.
- Bridge.Format: the field grammar follows Python 3.12's `parse_field`. Conversions (`!r`), format specs (`:>10`), attribute and index access in the title template are reported as `Unsupported` rather than formatted, and so are the ValueErrors Python raises while reading a conversion or a spec ("expected ':' after conversion specifier", "unmatched '{' in format spec"). An index or attribute field such as `{a[x]}` is `Unsupported`, where Python would first look up `a` (a KeyError for any name but `app_name` and `title`) and then index it. The template and the length limit are taken as a string and an integer. A configuration value of another type, on which Python raises or compares differently, is not modelled.
- Sender.TextMessageRequest: the `json.dumps` text of the keyboard is kept as the value itself (`JsonText`). Key order and spacing of the JSON text are not modelled.
- Sender.DocumentRequest: text is modelled as Unicode scalar values (Dafny `char`). A message holding a lone surrogate, on which `encode('utf-8')` and the form encoding of `requests` raise UnicodeEncodeError, is not modelled.
- Sender.MakeRequest: the bot-token URL, the 30-second timeout and the proxy dict of each POST are not modelled. `get_proxy_dict` is modelled on its own in `Config.ProxyDictFor`. A failing `response.json()` counts as a `RequestError` or an `OtherError` outcome, depending on the exception.
- The urllib3 `Retry` adapter under the session, `_create_session`, `_test_connection` and the `getMe` call are not part of this model. They are I/O set up before any message is sent.
- Listener.Admit: the reads of the two list properties are taken once per message; the source reads the whitelist property twice, and the two reads see the same configuration.
- PyValues.ToInt: configuration values are finite numbers. YAML `.inf`, `-.inf` and `.nan` load as Python floats on which `int()` raises, so `_to_int_list` drops them; `Float(real)` cannot hold them and the model does not cover them.
- Listener: `appid` values other than an integer or absent (a string, a float) are not modelled, and neither is Python's treatment of `bool` as `int`.
- Listener: the Gotify connection, the async stream and `get_applications()` are not modelled. The stream is a finite sequence, and each fetch is an injected `Option` result.
- Listener.HandleStep: reaching the bridge is modelled as `Forwarded` with its arguments. An exception raised inside the bridge is caught per message by the source and is not modelled here.
- Config: loading the YAML file (existence check, `yaml.safe_load`, its errors) is not modelled: the configuration is the loaded value, with string keys, and the constructor is modelled by `Config.ValidateConfig`.
- Logging, `core/logging.py`, `main.py` and the command-line tools are not part of this model, apart from the test message of `tools/test_send.py`.
- f-strings of values other than integers and None (in `未知应用({app_id})`) are not modelled.
