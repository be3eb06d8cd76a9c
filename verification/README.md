# drupal-mjml: format dispatch, renderer selection and renderer registration

A Dafny model of the decision logic in the Drupal `mjml` module. The module
turns MJML mail bodies into HTML. The model covers three pieces:

- **`MjmlMailer::format`** (`mailer.dfy`). It reads the `Content-Type` header
  of an outgoing message. `text/mjml` bodies are converted by the MJML
  renderer, `text/mjml+twig` bodies are only relabelled `text/html`, and every
  other message goes to the inherited `PhpMail::format`. If the conversion
  throws an `\Exception`, it is logged and the message goes to
  `PhpMail::format`. Any other throwable (a PHP `\Error`) escapes `format`.
- **`DefaultMjmlRenderer::render`** (`default_renderer.dfy`). On every call it
  picks a renderer service id: the `default_renderer` setting, else the
  `default_renderer` key of the `mjml` container parameter, else
  `mjml.renderer.binary`. It fetches that service from the container and
  delegates to it.
- **`MjmlServiceProvider::register`** (`service_provider.dfy`). Each renderer
  option is read as `settings ?? parameter ?? default`. The binary renderer is
  always defined. The mjml.io client and the API renderer are defined only
  when the `Mjml\Client` class exists.

`config.dfy` models PHP configuration values and the `??` / `isset` reading
of nested keys. `wiring.dfy` connects the three pieces: the container the
provider builds is the one the selector reads, and the selector is the
renderer the mailer uses.

The model is purely functional:

- A message is a record of headers, body and other fields.
- A configuration layer is a PHP value tree.
- The container is a map from service id to service definition.
- The renderers are an abstract `Backend` function from a service
  definition and markup to HTML or a failure.
- `PhpMail::format` is an abstract function on messages.
- `Format` returns the message, the log entries it emitted, and the markup
  it handed to the renderer.

A thrown throwable is a `Failure` value of `Result`. The renderer's
failures are split into `\Exception`s and engine `\Error`s. `format`'s
`catch (\Exception $e)` handles only the first kind. `Format` returns the
second kind as its own `Failure`.

Three points where the code is easy to misread:

- On a render failure, `PhpMail::format` receives the message that has
  already been relabelled `text/html` and collapsed to its first body part.
  It does not receive the original message.
- The header key is the literal `Content-Type`, matched case-sensitively. A
  missing header reads as `''`.
- The error log carries the collapsed body (the markup that was rendered),
  not the whole original body. Only the multi-part warning carries the whole
  body.

`Settings::get` is Drupal core code, outside this module's source. The
model follows Drupal's definition: the stored value, unless it is missing or
null, else the default.

## Model

| member | source | states |
|---|---|---|
| Config.Lookup | src/MjmlServiceProvider.php:47 | a nested read under `??`/`isset` finds nothing when a key is missing or an intermediate value is not an array; a found value is never null, so null counts as absent |
| Config.LookupCompose | src/MjmlServiceProvider.php:47-48 | reading `$v[p][q]` equals reading `$v[p]` and then `[q]` from what was found, and misses when the prefix misses |
| Config.LookupStep | src/Renderer/DefaultMjmlRenderer.php:50 | `isset($v[k])` holds exactly when `$v` is an array that has key `k` with a non-null value, and then the value read is that entry |
| Config.Coalesce | src/MjmlServiceProvider.php:47-48 | `a ?? b ?? default` yields the value of the first layer that sets the key; if no layer sets it, the default |
| Config.SettingsGet | src/MjmlServiceProvider.php:23 | `Settings::get($name, $default)` is `storage[$name] ?? $default`: the same first-match rule over a single layer |
| Config.MjmlConfiguration | src/MjmlServiceProvider.php:24-29 | an undefined `mjml` container parameter becomes an empty layer in which every key read misses, not an error |
| ServiceProvider.ResolveOption | src/MjmlServiceProvider.php:47-48 | a provider option is the settings value when set, else the parameter value when set, else the default |
| ServiceProvider.RegisterBinaryProvider | src/MjmlServiceProvider.php:45-52 | defines `mjml.renderer.binary` with path defaulting to `''` and minify to `FALSE`, settings first; all other ids are kept |
| ServiceProvider.RegisterApiRenderer | src/MjmlServiceProvider.php:65-76 | with the client class, defines `mjml.api_client` with app id and secret (default `''`) and `mjml.renderer.api` referencing it; without it, the container is unchanged |
| ServiceProvider.Register | src/MjmlServiceProvider.php:22-32 | the binary renderer is always defined; the API entries appear iff the client class exists (for a container without them); unrelated ids are untouched |
| DefaultRenderer.SelectRendererId | src/Renderer/DefaultMjmlRenderer.php:41-60 | the settings `default_renderer` wins whatever the parameter says; else the parameter's; else `mjml.renderer.binary`; a missing parameter counts as empty |
| DefaultRenderer.Render | src/Renderer/DefaultMjmlRenderer.php:40-62 | the result is the selected service's outcome on the unchanged markup; an unregistered id fails with not-found and never falls back |
| Mailer.Relabel | src/Plugin/Mail/MjmlMailer.php:93-99 | the MJML branch sets Content-Type to `text/html` and the body to its first part; every other header and message key is kept |
| Mailer.Format | src/Plugin/Mail/MjmlMailer.php:89-122 | pass-through for any other content type; one render only for `text/mjml`, on the first part; Twig relabel without render; success body is the HTML; a caught `\Exception` gives `parent` of the relabelled message; any other throwable escapes; the exact log is the full-body warning iff an MJML body has several parts, then the error iff an `\Exception` was caught |
| Mailer.FormatTwiceIsPassThrough | src/Plugin/Mail/MjmlMailer.php:92-119 | a message produced by an MJML branch without failure is `text/html`, so formatting it again is pure delegation with no render and no log |
| Wiring.SettingsLayersAgree | src/MjmlServiceProvider.php:23 | the settings layer read with default null (selector) and with default `[]` (provider) answer every key read alike |
| Wiring.BinaryRendererByDefault | src/Renderer/DefaultMjmlRenderer.php:57-61 | with no `default_renderer` in either layer, every render is the binary renderer's outcome, built from the layered path and minify options |
| Wiring.ApiRendererWithoutClientFallsBack | src/MjmlServiceProvider.php:66-75 | selecting `mjml.renderer.api` (from settings or from the parameter) without the client class fails every lookup with not-found; `format` catches it, logs it and returns `parent` of the relabelled message |
| Wiring.ApiRendererWithClient | src/MjmlServiceProvider.php:65-75 | with the client class, selecting `mjml.renderer.api` delegates to the API renderer built on the client with the settings-first application id and secret key |
| Wiring.EngineErrorEscapesFormat | src/Plugin/Mail/MjmlMailer.php:104-114 | an `\Error` thrown by the selected service is not caught: `format` throws it, logs no error and never calls `parent` |
| Wiring.ConvertedThroughSelectedRenderer | src/Plugin/Mail/MjmlMailer.php:103-105 | an MJML message converted through the selected renderer carries exactly that renderer's HTML under `text/html`, with only the multi-part warning logged |

## Left out

- `reset()` on an empty body array returns `false`, and `count()` on a non-array body throws in PHP 8. `Format` requires an MJML-tagged message to have a non-empty list body, so neither case is modelled.
- The concrete renderers (`BinaryRenderer`, the mjml.io `Client` and `src/Renderer/ApiRenderer.php`) run a subprocess or call the network. They are the abstract `Backend` function.
- `PhpMail::format` is not part of this model. It is an abstract function parameter.
- Log message text, `print_r` formatting and `Error::decodeException` details are left out. A log entry records its level and payload only.
- The dependency-injection mechanics are left out: `create()`, `ContainerAwareTrait`, `Definition`/`Reference` objects and how services get built. The container is a map from id to definition, and `class_exists('Mjml\Client')` is a boolean parameter.
- A non-string `default_renderer` value is left out. PHP would coerce a scalar to a string id or throw a `TypeError`. The model fails such a value with `InvalidServiceId` and counts it as an `\Exception`.
- ServiceProvider.Register: a non-null, non-array `mjml` setting, or any non-array `mjml` parameter (null included), is a `TypeError` at the provider's typed `array` arguments (src/MjmlServiceProvider.php:45, 65). `Register` reads such a layer as one in which every key is absent.
- Integer array keys are left out. Every key the module reads is a string.
- Concurrency is absent by construction. The only state that persists between calls is the container, which `register()` builds once from the settings of that moment. The wiring lemmas give `Register` its own build-time settings, separate from the settings `DefaultMjmlRenderer::render` reads on each call. Selection keeps no cache and is recomputed on every call.
