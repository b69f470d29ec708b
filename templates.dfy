/** What the sender knows of Jinja: environments, templates selected by
    layout name, and the parameter dictionaries passed to templates.
    Loading and rendering are not modelled. */
module Templates {
  import opened Py

  /** A Jinja environment: the directory its loader reads templates from and
      the names of the globals the sender installs into it. */
  datatype TemplateEnv = TemplateEnv(searchPath: string, globals: set<string>)

  /** `env.get_template(name)`, represented by the environment and the layout name. */
  datatype Template = Template(env: TemplateEnv, name: string)

  /** A value in a Jinja parameter dictionary. */
  datatype ParamValue =
    | NodeName(node: string)
    | UserName(user: string)
    | Timestamp(now: int)
    | SenderAddress(address: Option<string>)
    | ErrorMarker(contentType: string)
    | CallerValue(id: nat)

  type Params = map<string, ParamValue>
}
