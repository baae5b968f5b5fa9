/** The `InvenioRecordsFiles` extension: configuration defaults and its
    registration in the application (ext.py:20-37). */
module Extension {
  import opened Models

  const Prefix: string := "RECORDS_FILES_"
  const ExtensionName: string := "invenio-records-files"

  /** `name.startswith('RECORDS_FILES_')` */
  predicate HasPrefix(name: string) {
    |Prefix| <= |name| && name[..|Prefix|] == Prefix
  }

  /** The configuration once every prefixed default has been set where absent:
      existing values are never overwritten, prefixed defaults fill the gaps,
      and nothing else is added. */
  function MergedConfig(config: map<string, Json>, defaults: map<string, Json>): (r: map<string, Json>)
    ensures forall k :: k in config ==> k in r && r[k] == config[k]
    ensures forall k :: k in defaults && HasPrefix(k) && k !in config ==> k in r && r[k] == defaults[k]
    ensures forall k :: k in r ==> k in config || (k in defaults && HasPrefix(k))
  {
    map k | k in config.Keys + (set n | n in defaults && HasPrefix(n)) ::
      if k in config then config[k] else defaults[k]
  }

  /** Set-if-absent is idempotent: initialising twice equals initialising once. */
  lemma MergedConfigIdempotent(config: map<string, Json>, defaults: map<string, Json>)
    ensures MergedConfig(MergedConfig(config, defaults), defaults) == MergedConfig(config, defaults)
  {
  }

  /** The Flask application: its `config` dict and its `extensions` registry. */
  class App {
    var config: map<string, Json>
    var extensions: map<string, object>

    constructor(config: map<string, Json>)
      ensures this.config == config && extensions == map[]
    {
      this.config := config;
      extensions := map[];
    }
  }

  /** The extension. The `config` module it reads its defaults from is given
      as `defaults`, the map from each of the module's names to its value. */
  class InvenioRecordsFiles {

    /** `InvenioRecordsFiles(app)`: runs `init_app` when an app is given. */
    constructor(app: App?, defaults: map<string, Json>)
      modifies if app == null then {} else {app}
      ensures app != null ==> app.config == MergedConfig(old(app.config), defaults)
      ensures app != null ==> app.extensions == old(app.extensions)[ExtensionName := this]
    {
      new;
      if app != null {
        InitApp(app, defaults);
      }
    }

    /** `init_app`: merge the defaults and register the instance under
        `'invenio-records-files'`. */
    method InitApp(app: App, defaults: map<string, Json>)
      modifies app
      ensures app.config == MergedConfig(old(app.config), defaults)
      ensures app.extensions == old(app.extensions)[ExtensionName := this]
    {
      InitConfig(app, defaults);
      app.extensions := app.extensions[ExtensionName := this];
    }

    /** `init_config`: `app.config.setdefault(k, getattr(config, k))` for every
        name with the prefix. */
    method InitConfig(app: App, defaults: map<string, Json>)
      modifies app`config
      ensures app.config == MergedConfig(old(app.config), defaults)
    {
      var todo := defaults.Keys;
      while todo != {}
        invariant todo <= defaults.Keys
        invariant forall k :: k in old(app.config) ==> k in app.config && app.config[k] == old(app.config)[k]
        invariant forall k :: k in defaults && k !in todo && HasPrefix(k) && k !in old(app.config) ==>
          k in app.config && app.config[k] == defaults[k]
        invariant forall k :: k in app.config ==>
          k in old(app.config) || (k in defaults && k !in todo && HasPrefix(k))
        decreases |todo|
      {
        var k :| k in todo;
        if HasPrefix(k) && k !in app.config {
          app.config := app.config[k := defaults[k]];
        }
        todo := todo - {k};
      }
      var merged := MergedConfig(old(app.config), defaults);
      assert app.config.Keys == merged.Keys;
    }
  }
}
