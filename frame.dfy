/** The main window: the read-only text area with its caret, the status bar
    text and the animated background panel it owns, driven by the menu items.

    The file chooser's answer and the result of reading the chosen file come
    in as one OpenAnswer value; message boxes go out as Dialog values. */
module Frame {
  import opened Animation

  datatype Option<T> = None | Some(value: T)

  datatype MessageKind = Information | ErrorMessage

  /** What an action shows: a modal message box, or the help window. */
  datatype Dialog = MessageBox(title: string, message: string, kind: MessageKind) | HelpWindow

  /** The outcome of "Abrir Arquivo": the chooser was not approved (cancel or
      chooser error), or the chosen file was read, or reading it threw an IOException. */
  datatype OpenAnswer =
    | NotApproved
    | Read(fileName: string, text: string)
    | ReadFailed(fileName: string, reason: string)

  datatype MenuItem =
    | OpenFileItem | CloseFileItem | ExitItem
    | PatternsItem | ColorsItem | SpeedItem
    | HelpItem | AboutItem

  const ReadyStatus: string := "Pronto."
  const OpenedPrefix: string := "Arquivo aberto: "
  const OpenFailedStatus: string := "Falha ao abrir o arquivo."
  const ClosedStatus: string := "Arquivo fechado."

  const NotImplementedMessage: Dialog :=
    MessageBox("Informação", "Funcionalidade não implementada.", Information)
  const AboutMessage: Dialog :=
    MessageBox("Sobre", "Aplicação: Basic GUI with Threads\nVersão: 2025.a\nAutores: [Seu Nome/Grupo Aqui]", Information)

  function ReadErrorMessage(reason: string): Dialog
  {
    MessageBox("Erro de Arquivo", "Erro ao ler o arquivo: " + reason, ErrorMessage)
  }

  /** The configuration items: none of them reaches the panel's setters. */
  predicate IsConfigurationItem(item: MenuItem)
  {
    item == PatternsItem || item == ColorsItem || item == SpeedItem
  }

  class MainFrame {
    var content: string
    var caret: nat
    var status: string
    const backgroundPanel: AnimatedBackgroundPanel

    /** The caret lies within the text, the panel is consistent, and the panel
        keeps its initial settings, since no action of the window changes them. */
    ghost predicate Valid()
      reads this, backgroundPanel
    {
      caret <= |content| &&
      backgroundPanel.Valid() &&
      PanelAtDefaults()
    }

    ghost predicate PanelAtDefaults()
      reads backgroundPanel
    {
      backgroundPanel.animationDelay == DefaultDelay &&
      backgroundPanel.currentColorMode == Random &&
      backgroundPanel.currentDrawPattern == SolidFill
    }

    /** The panel and its current thread: what the exit path may change. */
    ghost function PanelObjects(): set<object>
      reads this, backgroundPanel
    {
      {backgroundPanel} + if backgroundPanel.animationThread == null then {} else {backgroundPanel.animationThread}
    }

    /** The window as built: empty text, "Pronto." in the status bar, and a running animation. */
    constructor (source: nat -> nat)
      ensures Valid()
      ensures content == "" && caret == 0 && status == ReadyStatus
      ensures fresh(backgroundPanel) && fresh(backgroundPanel.random)
      ensures backgroundPanel.random.source == source
      ensures backgroundPanel.running
      ensures backgroundPanel.animationThread != null && fresh(backgroundPanel.animationThread)
      ensures backgroundPanel.animationThread.started && !backgroundPanel.animationThread.interrupted
      ensures backgroundPanel.circles == [] && backgroundPanel.background == LookAndFeelDefault
    {
      backgroundPanel := new AnimatedBackgroundPanel(source);
      content := "";
      caret := 0;
      status := ReadyStatus;
      new;
      backgroundPanel.StartAnimation();
    }

    /** "Abrir Arquivo": nothing happens unless the chooser is approved; a read
        replaces the text and moves the caret to the top; a failed read only
        reports the failure. */
    method OpenFile(answer: OpenAnswer) returns (shown: Option<Dialog>)
      requires Valid()
      modifies this`content, this`caret, this`status
      ensures Valid()
      ensures answer.NotApproved? ==>
        content == old(content) && caret == old(caret) && status == old(status) && shown == None
      ensures answer.Read? ==>
        && content == answer.text && caret == 0
        && status == OpenedPrefix + answer.fileName
        && shown == None
      ensures answer.ReadFailed? ==>
        && content == old(content) && caret == old(caret)
        && status == OpenFailedStatus
        && shown == Some(ReadErrorMessage(answer.reason))
    {
      shown := None;
      match answer
      case NotApproved =>
      case Read(fileName, text) =>
        content := text;
        caret := 0;
        status := OpenedPrefix + fileName;
      case ReadFailed(_, reason) =>
        shown := Some(ReadErrorMessage(reason));
        status := OpenFailedStatus;
    }

    /** "Fechar Arquivo": from any state, the text is emptied and the status says so. */
    method CloseFile()
      requires Valid()
      modifies this`content, this`caret, this`status
      ensures Valid()
      ensures content == "" && caret == 0 && status == ClosedStatus
    {
      content := "";
      caret := 0;
      status := ClosedStatus;
    }

    /** "Sair": stops the animation (disposing the window and ending the process follow). */
    method ExitApplication()
      requires Valid()
      modifies backgroundPanel`running, backgroundPanel.animationThread
      ensures Valid()
      ensures !backgroundPanel.running
      ensures backgroundPanel.animationThread == old(backgroundPanel.animationThread)
      ensures backgroundPanel.animationThread != null ==>
        && backgroundPanel.animationThread.interrupted
        && backgroundPanel.animationThread.started == old(backgroundPanel.animationThread.started)
    {
      backgroundPanel.StopAnimation();
    }

    /** Closing the window from its title bar takes the same exit path. */
    method WindowClosing()
      requires Valid()
      modifies backgroundPanel`running, backgroundPanel.animationThread
      ensures Valid()
      ensures !backgroundPanel.running
      ensures backgroundPanel.animationThread == old(backgroundPanel.animationThread)
      ensures backgroundPanel.animationThread != null ==>
        && backgroundPanel.animationThread.interrupted
        && backgroundPanel.animationThread.started == old(backgroundPanel.animationThread.started)
    {
      ExitApplication();
    }

    method ShowNotImplementedDialog() returns (shown: Dialog)
      ensures shown.MessageBox? && shown.kind == Information
      ensures shown == NotImplementedMessage
    {
      shown := NotImplementedMessage;
    }

    method ShowAboutDialog() returns (shown: Dialog)
      ensures shown.MessageBox? && shown.title == "Sobre" && shown.kind == Information
      ensures shown == AboutMessage
    {
      shown := AboutMessage;
    }

    method ShowHelpDialog() returns (shown: Dialog)
      ensures shown == HelpWindow
    {
      shown := HelpWindow;
    }

    /** Choosing a menu item; the answer is consulted by "Abrir Arquivo" only. */
    method Select(item: MenuItem, answer: OpenAnswer) returns (shown: Option<Dialog>)
      requires Valid()
      modifies this`content, this`caret, this`status, backgroundPanel`running, backgroundPanel.animationThread
      ensures Valid()
      ensures IsConfigurationItem(item) ==>
        && shown == Some(NotImplementedMessage)
        && unchanged(this) && unchanged(PanelObjects())
      ensures item == HelpItem ==>
        shown == Some(HelpWindow) && unchanged(this) && unchanged(PanelObjects())
      ensures item == AboutItem ==>
        shown == Some(AboutMessage) && unchanged(this) && unchanged(PanelObjects())
      ensures item == OpenFileItem ==>
        && unchanged(PanelObjects())
        && (answer.NotApproved? ==> unchanged(this) && shown == None)
        && (answer.Read? ==>
              content == answer.text && caret == 0 && status == OpenedPrefix + answer.fileName && shown == None)
        && (answer.ReadFailed? ==>
              && content == old(content) && caret == old(caret) && status == OpenFailedStatus
              && shown == Some(ReadErrorMessage(answer.reason)))
      ensures item == CloseFileItem ==>
        && unchanged(PanelObjects())
        && content == "" && caret == 0 && status == ClosedStatus && shown == None
      ensures item == ExitItem ==>
        && unchanged(this)
        && !backgroundPanel.running
        && (backgroundPanel.animationThread != null ==>
              && backgroundPanel.animationThread.interrupted
              && backgroundPanel.animationThread.started == old(backgroundPanel.animationThread.started))
        && shown == None
    {
      shown := None;
      match item
      case OpenFileItem =>
        shown := OpenFile(answer);
      case CloseFileItem =>
        CloseFile();
      case ExitItem =>
        ExitApplication();
      case PatternsItem =>
        var d := ShowNotImplementedDialog();
        shown := Some(d);
      case ColorsItem =>
        var d := ShowNotImplementedDialog();
        shown := Some(d);
      case SpeedItem =>
        var d := ShowNotImplementedDialog();
        shown := Some(d);
      case HelpItem =>
        var d := ShowHelpDialog();
        shown := Some(d);
      case AboutItem =>
        var d := ShowAboutDialog();
        shown := Some(d);
    }
  }
}
