/** DefaultMjmlRenderer: on every render call, picks the renderer service
    named by the configuration (settings first, then the container parameter,
    then the binary renderer), fetches it from the container and delegates. */
module DefaultRenderer {
  import opened Wrappers
  import opened Config
  import opened ServiceProvider

  const DEFAULT_RENDERER_KEY: seq<string> := ["default_renderer"]

  /** A PHP throwable, split the way `catch (\Exception $e)` splits it: an
      `\Exception` (a RuntimeException from the binary, an API error, ...) or
      an engine `\Error` (a TypeError, a call to an undefined method, ...). */
  datatype Throwable = Exception(message: string) | Error(message: string)

  /** What a render call through this service can throw. */
  datatype RenderError =
      /** The container has no service under the selected id
          (ServiceNotFoundException, an `\Exception`). */
    | ServiceNotFound(id: string)
      /** The configured id is not a string, so it names no service. */
    | InvalidServiceId(value: Value)
      /** The selected service itself threw while building or rendering. */
    | BackendFailure(thrown: Throwable)
  {
    /** Whether the throwable is an `\Exception`, as opposed to an `\Error`. */
    predicate IsException() {
      !(BackendFailure? && thrown.Error?)
    }
  }

  /** The services behind the ids (the mjml binary, the mjml.io API, or any
      other service a site names): given the service definition and the
      markup, the HTML or what building the service or calling `render` on
      it threw. Their internals are outside this model. */
  type Backend = (Service, string) -> Result<string, Throwable>

  /** The settings layer as this class reads it: `$settings->get('mjml')`,
      which is null when unset. */
  function RendererSettings(settings: Settings): Value
  {
    SettingsGet(settings, "mjml", Null)
  }

  /** The id of the renderer service to use: the `default_renderer` setting if
      set, else the `default_renderer` key of the `mjml` parameter if set, else
      the binary renderer. */
  function SelectRendererId(settings: Settings, params: Parameters): (r: Value)
    ensures Lookup(RendererSettings(settings), DEFAULT_RENDERER_KEY).Some? ==>
              r == Lookup(RendererSettings(settings), DEFAULT_RENDERER_KEY).value
    ensures Lookup(RendererSettings(settings), DEFAULT_RENDERER_KEY).None? &&
            Lookup(MjmlConfiguration(params), DEFAULT_RENDERER_KEY).Some? ==>
              r == Lookup(MjmlConfiguration(params), DEFAULT_RENDERER_KEY).value
    ensures Lookup(RendererSettings(settings), DEFAULT_RENDERER_KEY).None? &&
            Lookup(MjmlConfiguration(params), DEFAULT_RENDERER_KEY).None? ==>
              r == Str(BINARY_RENDERER)
    ensures r != Null
  {
    var layers := [RendererSettings(settings), MjmlConfiguration(params)];
    assert layers[0] == RendererSettings(settings) && layers[1] == MjmlConfiguration(params);
    Coalesce(layers, DEFAULT_RENDERER_KEY, Str(BINARY_RENDERER))
  }

  /** `render($mjml_content)`: selection, container lookup and delegation.
      Lookup misses and renderer failures propagate to the caller. */
  function Render(settings: Settings, params: Parameters, container: Container, backend: Backend,
                  mjml: string): (r: Result<string, RenderError>)
    // the outcome is the selected service's own outcome on the unchanged markup
    ensures forall id :: SelectRendererId(settings, params) == Str(id) && id in container ==>
              match backend(container[id], mjml)
              case Success(html) => r == Success(html)
              case Failure(cause) => r == Failure(BackendFailure(cause))
    // an id the container does not define is an error, never a silent fallback
    ensures forall id :: SelectRendererId(settings, params) == Str(id) && id !in container ==>
              r == Failure(ServiceNotFound(id))
    ensures !SelectRendererId(settings, params).Str? ==>
              r == Failure(InvalidServiceId(SelectRendererId(settings, params)))
  {
    match SelectRendererId(settings, params)
    case Str(id) =>
      if id in container then
        match backend(container[id], mjml)
        case Success(html) => Success(html)
        case Failure(cause) => Failure(BackendFailure(cause))
      else Failure(ServiceNotFound(id))
    case other => Failure(InvalidServiceId(other))
  }
}
