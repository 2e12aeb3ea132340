/** `ClassHelper::getClassFullname`: how a class name written in a file is
    resolved to a fully qualified one. */
module ClassNames {
  import opened Wrappers
  import opened OrderedMaps
  import UseImports
  import UseImportForms
  import opened Reflection

  /** `getClassFullname($name, $inClass)`: an import of the file of
      `$inClass` wins; otherwise the name itself when that class exists;
      otherwise the name inside the namespace of `$inClass` when that class
      exists; otherwise an exception. */
  function GetClassFullname(env: Env, name: string, ctx: ClassInfo): (r: Result<string>)
    ensures r.Ok? ==> Get(UseImports.Imports(ctx.source), name) == Some(r.value) || env.classes(r.value).Some?
  {
    var hit := Get(UseImports.Imports(ctx.source), name);
    if hit.Some? then Ok(hit.value)
    else if env.classes(name).Some? then Ok(name)
    else if env.classes(ctx.namespace + "\\" + name).Some? then Ok(ctx.namespace + "\\" + name)
    else Err("Cannot locate class " + name)
  }

  /** The resolution order, case by case: the import map first, then the
      name as written, then the name inside the namespace; the lookup fails
      exactly when none of the three applies. */
  lemma ResolutionOrder(env: Env, name: string, ctx: ClassInfo)
    ensures var imported := Get(UseImports.Imports(ctx.source), name);
      var local := ctx.namespace + "\\" + name;
      (imported.Some? ==> GetClassFullname(env, name, ctx) == Ok(imported.value)) &&
      (imported.None? && env.classes(name).Some? ==> GetClassFullname(env, name, ctx) == Ok(name)) &&
      (imported.None? && env.classes(name).None? && env.classes(local).Some? ==>
         GetClassFullname(env, name, ctx) == Ok(local)) &&
      (GetClassFullname(env, name, ctx).Err? <==>
         imported.None? && env.classes(name).None? && env.classes(local).None?)
  {
  }

  /** In a file that starts with a single `use` of a fully qualified name,
      that name's last segment resolves to it, whatever classes exist. */
  lemma ResolvesImportedName(env: Env, fqcn: string, rest: string, ctx: ClassInfo)
    requires UseImportForms.IsName(fqcn)
    requires forall j | 0 <= j :: !UseImports.OccursAt("use " + fqcn + ";", "class", j)
    requires ctx.source == "use " + fqcn + ";" + "class" + rest
    ensures GetClassFullname(env, UseImports.LastSegment(fqcn), ctx) == Ok(fqcn)
  {
    UseImportForms.SingleUseFile(fqcn, rest);
  }
}
