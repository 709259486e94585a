/**
 * The dependency-injection container as the factory sees it: three maps that the
 * factory writes to. Service resolution, compilation and the container's other
 * behaviour are outside this model.
 */
module Container {
  import opened Php

  /** What can be passed to a service: a configuration value, a service reference or a parameter reference. */
  datatype Argument = Literal(value: Value) | ServiceRef(id: string) | ParameterRef(name: string)

  /** A method call recorded on a definition, to run when the service is built. */
  datatype MethodCall = MethodCall(name: string, arguments: seq<Argument>)

  /**
   * A child service definition: the abstract definition it extends, its positional
   * arguments, its named (replaced) arguments, its recorded method calls, and
   * whether it was marked public.
   */
  datatype Definition = Definition(
    parent: string,
    arguments: seq<Argument>,
    named: map<string, Argument>,
    calls: seq<MethodCall>,
    isPublic: bool)
  {
    /** `->addArgument($a)`: appends one positional argument. */
    function AddArgument(a: Argument): Definition {
      this.(arguments := arguments + [a])
    }

    /** `->replaceArgument($name, $a)`: sets one named argument. */
    function ReplaceArgument(name: string, a: Argument): Definition {
      this.(named := named[name := a])
    }

    /** `->addMethodCall($name, $args)`: records one more call. */
    function AddMethodCall(name: string, args: seq<Argument>): Definition {
      this.(calls := calls + [MethodCall(name, args)])
    }

    /** `->setPublic(true)`. */
    function SetPublic(): Definition {
      this.(isPublic := true)
    }
  }

  /** `new ChildDefinition($parent)`: extends `parent`, with nothing added yet. */
  function ChildDefinition(parent: string): Definition {
    Definition(parent, [], map[], [], false)
  }

  class ContainerBuilder {
    var parameters: map<string, Value>
    var definitions: map<string, Definition>
    var aliases: map<string, string>

    constructor ()
      ensures parameters == map[] && definitions == map[] && aliases == map[]
    {
      parameters, definitions, aliases := map[], map[], map[];
    }

    /** `setParameter`: stores `value` under `name`; nothing else changes. */
    method SetParameter(name: string, value: Value)
      modifies this
      ensures parameters == old(parameters)[name := value]
      ensures definitions == old(definitions) && aliases == old(aliases)
    {
      parameters := parameters[name := value];
    }

    /** `setDefinition`: stores `d` under `id`; nothing else changes. */
    method SetDefinition(id: string, d: Definition)
      modifies this
      ensures definitions == old(definitions)[id := d]
      ensures parameters == old(parameters) && aliases == old(aliases)
    {
      definitions := definitions[id := d];
    }

    /** `setAlias`: makes `alias` stand for the service `target`; nothing else changes. */
    method SetAlias(alias: string, target: string)
      modifies this
      ensures aliases == old(aliases)[alias := target]
      ensures parameters == old(parameters) && definitions == old(definitions)
    {
      aliases := aliases[alias := target];
    }

    /**
     * A chain of `->addArgument($a)` calls on the definition stored under `id`:
     * appends `args`, in order, to its positional arguments.
     */
    method AddArguments(id: string, args: seq<Argument>)
      requires id in definitions
      modifies this
      ensures definitions == old(definitions)[id := old(definitions)[id].(arguments := old(definitions)[id].arguments + args)]
      ensures parameters == old(parameters) && aliases == old(aliases)
    {
      definitions := definitions[id := definitions[id].(arguments := definitions[id].arguments + args)];
    }

    /** `getDefinition($id)->addMethodCall($name, $args)`: records a call on the stored definition of `id`. */
    method AddMethodCall(id: string, name: string, args: seq<Argument>)
      requires id in definitions
      modifies this
      ensures definitions == old(definitions)[id := old(definitions)[id].AddMethodCall(name, args)]
      ensures parameters == old(parameters) && aliases == old(aliases)
    {
      definitions := definitions[id := definitions[id].AddMethodCall(name, args)];
    }
  }
}
