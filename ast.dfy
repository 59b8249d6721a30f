/** The syntax trees the parsers build. Node and field names follow the `type`
    tags and properties of the JavaScript records. */
module Ast {
  import opened Results
  import opened Values

  /** Expression nodes. The legacy parser builds only Number, String, Var,
      Unary, Binary, Logical and Call; Field and Unknown are modular-only. */
  datatype Expr =
    | Number(n: JsNum)
    | String(s: string)
    | Var(name: string)
    | Field(path: seq<string>)
    | Unary(op: string, arg: Expr)
    | Binary(op: string, left: Expr, right: Expr)
    | Logical(op: string, left: Expr, right: Expr)
    | Call(name: string, args: seq<Expr>)
    | Unknown

  /** One DISPLAY item with its optional LABEL and FORMAT expressions. */
  datatype DisplayItem = DisplayItem(expr: Expr, labelExpr: Option<Expr>, format: Option<Expr>)

  /** `{kind: 'STREAM' | 'STREAM-HANDLE', name}`. */
  datatype StreamClause = StreamClause(kind: string, name: string)

  /** The source after INPUT FROM. */
  datatype InputSource =
    | Terminal
    | ValueOf(expr: Expr)
    | OsDir(directory: Expr, noAttrList: bool)
    | FromExpr(expr: Expr)

  /** `lobDir`: VALUE(expr) or a bare expression. */
  datatype LobDir = LobValue(expr: Expr) | LobExpr(expr: Expr)

  datatype MapOption = MapNone | MapEntry(entry: Expr)

  datatype ConvertOption = ConvertNone | Convert(target: Option<Expr>, source: Option<Expr>)

  /** The options record of INPUT FROM; `echo`, `map` and `convert` are `null` until set. */
  datatype InputOptions = InputOptions(
    lobDir: Option<LobDir>, binary: bool, echo: Option<bool>, mapping: Option<MapOption>,
    unbuffered: bool, convert: Option<ConvertOption>)

  const NoOptions := InputOptions(None, false, None, None, false, None)

  /** `{variable, fromExpr, toExpr, byExpr}` of a counted DO. */
  datatype LoopControl = LoopControl(variable: string, fromExpr: Expr, toExpr: Expr, byExpr: Option<Expr>)

  /** A FOR record of DO: the last path segment and the whole path. */
  datatype RecordRef = RecordRef(name: string, path: seq<string>)

  /** One BY entry of FOR EACH. */
  datatype OrderEntry = OrderEntry(path: seq<string>, descending: bool, hadBreak: bool)

  datatype External = External(
    library: string, callingConvention: Option<string>, ordinal: Option<JsNum>,
    persistent: bool, threadSafe: bool)

  /** A parameter taken out of a procedure body. */
  datatype Param = Param(name: string, mode: string, dataType: Option<string>, init: Option<Expr>, noUndo: bool)

  datatype RunArg = RunArg(mode: Option<string>, expr: Expr)

  datatype Container = Container(ctype: string, name: string)

  datatype Attribute = Attribute(name: string, expr: Expr)

  /** Statement nodes of the modular parser. A `{type: 'Block', body}` record is
      represented by its body. */
  datatype Stmt =
    | Empty
    | Assign(id: string, value: Expr)
    | DefineVariable(id: string, dataType: Option<string>, init: Option<Expr>, noUndo: bool)
    | DefineParameter(mode: string, id: string, dataType: Option<string>, init: Option<Expr>, noUndo: bool)
    | DefineWidget(widgetType: string, name: string, attributes: seq<Attribute>, noUndo: bool)
    | Display(items: seq<DisplayItem>, withOptions: seq<string>)
    | Input(inputTarget: Option<string>, stream: Option<StreamClause>, source: Option<InputSource>, options: Option<InputOptions>)
    | If(test: Expr, consequent: seq<Stmt>, alternate: Option<seq<Stmt>>)
    | Do(loopLabel: Option<string>, whileExpr: Option<Expr>, body: seq<Stmt>, loopControl: Option<LoopControl>,
         forRecords: seq<RecordRef>, transaction: bool)
    | Repeat(whileExpr: Option<Expr>, body: seq<Stmt>)
    | While(test: Expr, body: seq<Stmt>)
    | ForEach(qualifier: string, target: string, relation: Option<string>, where: Option<Expr>,
              orderBy: seq<OrderEntry>, body: seq<Stmt>, noLock: bool)
    | Find(target: string, relation: Option<string>, where: Option<Expr>, findQualifier: Option<string>, noError: bool)
    | Procedure(name: string, parameters: seq<Param>, body: seq<Stmt>, isPrivate: bool,
                external: Option<External>, inSuper: bool, prototypeOnly: bool)
    | Run(name: string, args: seq<RunArg>)
    | CreateWidget(widgetType: string, name: string, container: Option<Container>)
    | EnableWidgets(targets: seq<string>)
    | ViewWidgets(targets: seq<string>)
    | OnEvent(eventExpr: Expr, target: string, body: seq<Stmt>)
    | ApplyEvent(eventExpr: Expr, target: string)
    | WaitForEvent(eventExpr: Expr, waitTarget: Option<string>)
    | Message(parts: seq<Expr>, viewAs: Option<string>, title: Option<Expr>)

  /** The `type` tag of a statement node, the key of the executor table. */
  function TypeName(s: Stmt): string {
    match s
    case Empty => "Empty"
    case Assign(_, _) => "Assign"
    case DefineVariable(_, _, _, _) => "DefineVariable"
    case DefineParameter(_, _, _, _, _) => "DefineParameter"
    case DefineWidget(_, _, _, _) => "DefineWidget"
    case Display(_, _) => "Display"
    case Input(_, _, _, _) => "Input"
    case If(_, _, _) => "If"
    case Do(_, _, _, _, _, _) => "Do"
    case Repeat(_, _) => "Repeat"
    case While(_, _) => "While"
    case ForEach(_, _, _, _, _, _, _) => "ForEach"
    case Find(_, _, _, _, _) => "Find"
    case Procedure(_, _, _, _, _, _, _) => "Procedure"
    case Run(_, _) => "Run"
    case CreateWidget(_, _, _) => "CreateWidget"
    case EnableWidgets(_) => "EnableWidgets"
    case ViewWidgets(_) => "ViewWidgets"
    case OnEvent(_, _, _) => "OnEvent"
    case ApplyEvent(_, _) => "ApplyEvent"
    case WaitForEvent(_, _) => "WaitForEvent"
    case Message(_, _, _) => "Message"
  }
}
