/** The server screen: it validates the chosen base (and, with the wallet
    service, real-time) server, checks the PIN, switches the wallet to the
    new server, asks it for its version, and goes back to the previous
    server when the new one is not on mainnet (until the user confirms by
    typing "testnet") or does not answer. */
module ServerScreen {
  import opened Common
  import opened Text

  const NewServerInvalid := "New server is not valid"
  const NewWsServerInvalid := "New real-time server is not valid"
  const InvalidPin := "Invalid PIN"
  const InvalidValue := "Invalid value."
  const Mainnet := "mainnet"
  const Testnet := "testnet"

  /** What the new server's version request gives: its network, or an error. */
  datatype VersionReply = Version(network: string) | RequestFailed

  /** The calls the screen makes into the wallet facade, the library's config
      singleton and the local storage. */
  datatype Call =
    | ChangeServer(url: string)        // wallet.changeServer
    | ChangeWsServer(url: string)      // wallet.changeWsServer
    | SetWsUrl(url: string)            // config.setWalletServiceBaseWsUrl
    | SetNetwork(network: Option<string>)    // config.setNetwork
    | StoreNetwork(network: Option<string>)  // helpers.updateNetwork
    | ExecuteServerChange              // reload the wallet from the new server

  /** The network a non-mainnet server is recorded under: every "testnet-*"
      network (e.g. "testnet-golf") is "testnet", any other name is kept. */
  function NormalizeNetwork(network: string): (r: string)
    ensures r == Testnet <==> StartsWith(network, Testnet)
    ensures r != Testnet ==> r == network
  {
    if StartsWith(network, Testnet) then Testnet else network
  }

  /** Normalising a normalised name changes nothing. */
  lemma NormalizeIdempotent(network: string)
    ensures NormalizeNetwork(NormalizeNetwork(network)) == NormalizeNetwork(network)
  {
    assert StartsWith(Testnet, Testnet);
  }

  /** The confirmation of a testnet server ignores letter case: the typed
      text is accepted exactly when it spells "testnet" in any mix of cases. */
  lemma ConfirmationIgnoresCase(typed: string)
    ensures Lower(typed) == Testnet <==>
      |typed| == |Testnet| && forall i :: 0 <= i < |typed| ==> LowerChar(typed[i]) == Testnet[i]
  {
    LowerEqualIffCharsMatch(typed, Testnet);
    assert Lower(Testnet) == Testnet;
    forall i | 0 <= i < |Testnet| ensures LowerChar(Testnet[i]) == Testnet[i] {
      LowerAt(Testnet, i);
    }
  }

  /** The servers a change targets, as the pair (base server, real-time
      server) that `serverSelected` validates and then switches the wallet to:
      the typed values when "new server" is checked, otherwise the selected
      ones. Outside wallet-service mode there is no real-time server. */
  function TargetServers(newServer: bool, useWalletService: bool, newServerInput: string,
                         newWsServerInput: string, selectedServer: string, selectedWsServer: string): (r: (string, string))
    ensures newServer ==> r.0 == newServerInput && r.1 == (if useWalletService then newWsServerInput else "")
    ensures !newServer ==> r == (selectedServer, selectedWsServer)
  {
    if newServer then (newServerInput, if useWalletService then newWsServerInput else "")
    else (selectedServer, selectedWsServer)
  }

  /** The field checks of `serverSelected`, in their order: an empty base
      server, then (wallet service only) an empty real-time server, the later
      message replacing the earlier. */
  method ValidateServer(newServer: bool, useWalletService: bool, newServerInput: string, newWsServerInput: string,
                        selectedServer: string, selectedWsServer: string) returns (invalidServer: bool, errorMessage: string)
    ensures var base := if newServer then newServerInput else selectedServer;
            var ws := if newServer then newWsServerInput else selectedWsServer;
            (invalidServer <==> base == "" || (useWalletService && ws == "")) &&
            errorMessage == (if useWalletService && ws == "" then NewWsServerInvalid
                             else if base == "" then NewServerInvalid
                             else "")
  {
    errorMessage := "";
    invalidServer := false;
    if newServer {
      if newServerInput == "" {
        invalidServer := true;
        errorMessage := NewServerInvalid;
      }
      if useWalletService && newWsServerInput == "" {
        invalidServer := true;
        errorMessage := NewWsServerInvalid;
      }
    } else {
      if selectedServer == "" {
        invalidServer := true;
        errorMessage := NewServerInvalid;
      }
      if useWalletService && selectedWsServer == "" {
        invalidServer := true;
        errorMessage := NewWsServerInvalid;
      }
    }
  }

  /** The screen's state and the part of the library config it changes. */
  datatype State = State(
    newServer: bool,
    errorMessage: string,
    loading: bool,
    selectedServer: string,
    selectedWsServer: string,
    selectedNetwork: Option<string>,
    testnetError: string,
    alertOpen: bool,
    baseServer: string,
    wsServer: string,
    calls: seq<Call>)

  class Server {
    /** `props.useWalletService` and `isSoftwareWallet()`. */
    const useWalletService: bool
    const softwareWallet: bool
    /** `DEFAULT_SERVERS`, `DEFAULT_WALLET_SERVICE_SERVERS`, `DEFAULT_WALLET_SERVICE_WS_SERVERS`. */
    const defaultServers: seq<string>
    const walletServiceServers: seq<string>
    const walletServiceWsServers: seq<string>

    var newServer: bool
    var errorMessage: string
    var loading: bool
    var selectedServer: string
    var selectedWsServer: string
    var selectedNetwork: Option<string>
    var testnetError: string
    /** Whether the "confirm testnet server" modal is shown. */
    var alertOpen: bool
    /** The server the wallet currently talks to (base URL and, with the
        wallet service, the real-time URL), as held by the library config. */
    var baseServer: string
    var wsServer: string
    var calls: seq<Call>

    ghost function Snapshot(): State
      reads this
    {
      State(newServer, errorMessage, loading, selectedServer, selectedWsServer, selectedNetwork,
            testnetError, alertOpen, baseServer, wsServer, calls)
    }

    constructor (useWalletService: bool, softwareWallet: bool, defaultServers: seq<string>,
                 walletServiceServers: seq<string>, walletServiceWsServers: seq<string>,
                 baseServer: string, wsServer: string)
      ensures this.useWalletService == useWalletService && this.softwareWallet == softwareWallet
      ensures this.defaultServers == defaultServers && this.walletServiceServers == walletServiceServers
      ensures this.walletServiceWsServers == walletServiceWsServers
      ensures Snapshot() == State(false, "", false, "", "", None, "", false, baseServer, wsServer, [])
    {
      this.useWalletService := useWalletService;
      this.softwareWallet := softwareWallet;
      this.defaultServers := defaultServers;
      this.walletServiceServers := walletServiceServers;
      this.walletServiceWsServers := walletServiceWsServers;
      newServer := false;
      errorMessage := "";
      loading := false;
      selectedServer := "";
      selectedWsServer := "";
      selectedNetwork := None;
      testnetError := "";
      alertOpen := false;
      this.baseServer := baseServer;
      this.wsServer := wsServer;
      calls := [];
    }

    method ChangeServer(url: string)
      modifies this
      ensures Snapshot() == old(Snapshot()).(baseServer := url, calls := old(calls) + [Call.ChangeServer(url)])
    {
      baseServer := url;
      calls := calls + [Call.ChangeServer(url)];
    }

    method ChangeWsServer(url: string)
      modifies this
      ensures Snapshot() == old(Snapshot()).(wsServer := url, calls := old(calls) + [Call.ChangeWsServer(url)])
    {
      wsServer := url;
      calls := calls + [Call.ChangeWsServer(url)];
    }

    /** The calls that point the wallet at `base` (and `ws`). */
    function SwitchCalls(base: string, ws: string): (r: seq<Call>)
      ensures |r| == if useWalletService then 2 else 1
      ensures r[0] == Call.ChangeServer(base)
      ensures useWalletService ==> r[1] == Call.ChangeWsServer(ws)
    {
      [Call.ChangeServer(base)] + (if useWalletService then [Call.ChangeWsServer(ws)] else [])
    }

    /** Points the wallet at `base` (and, with the wallet service, at `ws`). */
    method SwitchTo(base: string, ws: string)
      modifies this
      ensures Snapshot() == old(Snapshot()).(
        baseServer := base, wsServer := if useWalletService then ws else old(wsServer),
        calls := old(calls) + SwitchCalls(base, ws))
    {
      ChangeServer(base);
      if useWalletService {
        ChangeWsServer(ws);
      }
    }

    /** The part of `serverSelected` after the checks: switch to the target
        servers, ask the new server for its version, keep it when it is on
        mainnet and go back to the previous servers otherwise. */
    method ProbeServer(base: string, ws: string, reply: VersionReply)
      modifies this
      // mainnet: keep the new server and reload the wallet from it
      ensures reply == Version(Mainnet) ==>
        Snapshot() == old(Snapshot()).(
          errorMessage := "", selectedServer := base, selectedWsServer := ws, loading := true,
          baseServer := base, wsServer := if useWalletService then ws else old(wsServer),
          calls := old(calls) + SwitchCalls(base, ws) +
                   [SetNetwork(Some(Mainnet)), StoreNetwork(Some(Mainnet)), ExecuteServerChange])
      // another network: record it, go back to the previous server, ask for confirmation
      ensures reply.Version? && reply.network != Mainnet ==>
        Snapshot() == old(Snapshot()).(
          errorMessage := "", selectedServer := base, selectedWsServer := ws, loading := false,
          selectedNetwork := Some(NormalizeNetwork(reply.network)), alertOpen := true,
          calls := old(calls) + SwitchCalls(base, ws) + SwitchCalls(old(baseServer), old(wsServer)))
      // no answer: go back to the previous server
      ensures reply == RequestFailed ==>
        Snapshot() == old(Snapshot()).(
          errorMessage := "", selectedServer := base, selectedWsServer := ws, loading := false,
          calls := old(calls) + SwitchCalls(base, ws) + SwitchCalls(old(baseServer), old(wsServer)))
    {
      var currentServer := baseServer;
      var currentWsServer := if useWalletService then wsServer else "";
      BeginProbe(base, ws);
      match reply {
        case Version(network) =>
          if network == Mainnet {
            KeepMainnet();
          } else {
            RejectNetwork(network, currentServer, currentWsServer);
          }
        case RequestFailed =>
          RollBack(currentServer, currentWsServer);
      }
    }

    /** Shows the loading state, records the targets and switches to them. */
    method BeginProbe(base: string, ws: string)
      modifies this
      ensures Snapshot() == old(Snapshot()).(
        errorMessage := "", selectedServer := base, selectedWsServer := ws, loading := true,
        baseServer := base, wsServer := if useWalletService then ws else old(wsServer),
        calls := old(calls) + SwitchCalls(base, ws))
    {
      loading := true;
      errorMessage := "";
      selectedServer := base;
      selectedWsServer := ws;
      SwitchTo(base, ws);
    }

    /** The new server is on mainnet: store the network and reload the wallet. */
    method KeepMainnet()
      modifies this
      ensures Snapshot() == old(Snapshot()).(
        calls := old(calls) + [SetNetwork(Some(Mainnet)), StoreNetwork(Some(Mainnet)), ExecuteServerChange])
    {
      calls := calls + [SetNetwork(Some(Mainnet)), StoreNetwork(Some(Mainnet)), ExecuteServerChange];
    }

    /** The new server is on another network: record it (a "testnet-golf" or
        "testnet-charlie" answer is recorded as "testnet"), open the
        confirmation alert and go back to the previous servers. */
    method RejectNetwork(network: string, previous: string, previousWs: string)
      modifies this
      ensures Snapshot() == old(Snapshot()).(
        selectedNetwork := Some(NormalizeNetwork(network)), alertOpen := true,
        baseServer := previous, wsServer := if useWalletService then previousWs else old(wsServer),
        loading := false, calls := old(calls) + SwitchCalls(previous, previousWs))
    {
      selectedNetwork := Some(NormalizeNetwork(network));
      alertOpen := true;
      RollBack(previous, previousWs);
    }

    /** Goes back to the servers in use before the attempt and stops loading. */
    method RollBack(previous: string, previousWs: string)
      modifies this
      ensures Snapshot() == old(Snapshot()).(
        baseServer := previous, wsServer := if useWalletService then previousWs else old(wsServer),
        loading := false, calls := old(calls) + SwitchCalls(previous, previousWs))
    {
      SwitchTo(previous, previousWs);
      loading := false;
    }

    /** `serverSelected`: `newServerInput`, `newWsServerInput` are the typed
        fields, `pinCorrect` is `isPinCorrect` of the typed PIN, and `reply`
        what the version request on the new server gives. */
    method ServerSelected(newServerInput: string, newWsServerInput: string, pinCorrect: bool, reply: VersionReply)
      modifies this
      ensures var target := TargetServers(old(newServer), useWalletService, newServerInput, newWsServerInput,
                                          old(selectedServer), old(selectedWsServer));
              var invalid := target.0 == "" || (useWalletService && target.1 == "");
              // an invalid server is reported and nothing else happens
              (invalid ==>
                Snapshot() == old(Snapshot()).(errorMessage := if useWalletService && target.1 == "" then NewWsServerInvalid
                                                             else NewServerInvalid)) &&
              // a software wallet with a wrong PIN changes no server
              (!invalid && softwareWallet && !pinCorrect ==>
                Snapshot() == old(Snapshot()).(errorMessage := InvalidPin)) &&
              // otherwise the new server is tried
              (!invalid && (!softwareWallet || pinCorrect) ==>
                selectedServer == target.0 && selectedWsServer == target.1 && errorMessage == "" &&
                (reply == Version(Mainnet) <==> baseServer == target.0 && loading)) &&
              // on mainnet the new server is kept and the wallet reloads from it
              (!invalid && (!softwareWallet || pinCorrect) && reply == Version(Mainnet) ==>
                Snapshot() == old(Snapshot()).(
                  errorMessage := "", selectedServer := target.0, selectedWsServer := target.1, loading := true,
                  baseServer := target.0, wsServer := if useWalletService then target.1 else old(wsServer),
                  calls := old(calls) + SwitchCalls(target.0, target.1) +
                           [SetNetwork(Some(Mainnet)), StoreNetwork(Some(Mainnet)), ExecuteServerChange])) &&
              // on another network the (normalised) network is recorded, the wallet
              // goes back to its server and the confirmation alert opens
              (!invalid && (!softwareWallet || pinCorrect) && reply.Version? && reply.network != Mainnet ==>
                Snapshot() == old(Snapshot()).(
                  errorMessage := "", selectedServer := target.0, selectedWsServer := target.1, loading := false,
                  selectedNetwork := Some(NormalizeNetwork(reply.network)), alertOpen := true,
                  calls := old(calls) + SwitchCalls(target.0, target.1) + SwitchCalls(old(baseServer), old(wsServer)))) &&
              // without an answer the wallet goes back to its server and stops loading
              (!invalid && (!softwareWallet || pinCorrect) && reply == RequestFailed ==>
                Snapshot() == old(Snapshot()).(
                  errorMessage := "", selectedServer := target.0, selectedWsServer := target.1, loading := false,
                  calls := old(calls) + SwitchCalls(target.0, target.1) + SwitchCalls(old(baseServer), old(wsServer))))
      // the wallet stays on its server unless the new one is on mainnet
      ensures reply != Version(Mainnet) ==> baseServer == old(baseServer) && wsServer == old(wsServer) && (loading ==> old(loading))
    {
      var invalidServer, message := ValidateServer(newServer, useWalletService, newServerInput, newWsServerInput,
                                                   selectedServer, selectedWsServer);
      errorMessage := message;
      if invalidServer {
        return;
      }

      var newBaseServer: string;
      var newWsServer: string;
      if newServer {
        newBaseServer := newServerInput;
        newWsServer := if useWalletService then newWsServerInput else "";
      } else {
        newBaseServer := selectedServer;
        newWsServer := selectedWsServer;
      }

      // no PIN on a hardware wallet
      if softwareWallet && !pinCorrect {
        errorMessage := InvalidPin;
        return;
      }

      ProbeServer(newBaseServer, newWsServer, reply);
    }


    /** `confirmTestnetServer`: `typed` is the text of the confirmation box.
        The "hidden" handlers run only when closing actually hides the alert;
        hiding an alert that is already closed fires no event. */
    method ConfirmTestnetServer(typed: string)
      modifies this
      ensures Lower(typed) != Testnet ==> Snapshot() == old(Snapshot()).(testnetError := InvalidValue)
      ensures Lower(typed) == Testnet && old(alertOpen) ==>
        Snapshot() == old(Snapshot()).(
          baseServer := old(selectedServer),
          wsServer := if useWalletService then old(selectedWsServer) else old(wsServer),
          testnetError := "", alertOpen := false, loading := true,
          calls := old(calls) + [Call.ChangeServer(old(selectedServer))] +
                   (if useWalletService then [SetWsUrl(old(selectedWsServer))] else []) +
                   [SetNetwork(old(selectedNetwork)), StoreNetwork(old(selectedNetwork)), ExecuteServerChange])
      // with the alert already closed the servers and network are applied,
      // but the wallet is not reloaded
      ensures Lower(typed) == Testnet && !old(alertOpen) ==>
        Snapshot() == old(Snapshot()).(
          baseServer := old(selectedServer),
          wsServer := if useWalletService then old(selectedWsServer) else old(wsServer),
          calls := old(calls) + [Call.ChangeServer(old(selectedServer))] +
                   (if useWalletService then [SetWsUrl(old(selectedWsServer))] else []) +
                   [SetNetwork(old(selectedNetwork)), StoreNetwork(old(selectedNetwork))])
    {
      if Lower(typed) != Testnet {
        testnetError := InvalidValue;
        return;
      }
      ChangeServer(selectedServer);
      if useWalletService {
        wsServer := selectedWsServer;
        calls := calls + [SetWsUrl(selectedWsServer)];
      }
      calls := calls + [SetNetwork(selectedNetwork), StoreNetwork(selectedNetwork)];
      if alertOpen {
        // hiding the modal runs its "hidden" handlers: the one set when the
        // screen mounted clears the error, the one set here reloads the wallet
        alertOpen := false;
        testnetError := "";
        loading := true;
        calls := calls + [ExecuteServerChange];
      }
    }

    /** `handleCheckboxChange`. */
    method HandleCheckboxChange(checked: bool)
      modifies this
      ensures Snapshot() == old(Snapshot()).(newServer := checked)
    {
      newServer := checked;
    }

    /** `handleBaseURLSelectChange`: `choice` is the selected option, `None`
        for the empty "--" option, otherwise an index into the list shown. */
    method HandleBaseURLSelectChange(choice: Option<nat>)
      requires choice.Some? ==>
        choice.value < |if useWalletService then walletServiceServers else defaultServers|
      modifies this
      ensures choice.None? ==> Snapshot() == old(Snapshot()).(selectedServer := "")
      ensures choice.Some? ==>
        Snapshot() == old(Snapshot()).(selectedServer := if useWalletService then walletServiceServers[choice.value]
                                                          else defaultServers[choice.value])
    {
      if choice.None? {
        selectedServer := "";
        return;
      }
      if useWalletService {
        selectedServer := walletServiceServers[choice.value];
      } else {
        selectedServer := defaultServers[choice.value];
      }
    }

    /** `handleWsURLSelectChange`: only meaningful with the wallet service. */
    method HandleWsURLSelectChange(choice: Option<nat>)
      requires useWalletService && choice.Some? ==> choice.value < |walletServiceWsServers|
      modifies this
      ensures !useWalletService ==> Snapshot() == old(Snapshot())
      ensures useWalletService && choice.None? ==> Snapshot() == old(Snapshot()).(selectedWsServer := "")
      ensures useWalletService && choice.Some? ==>
        Snapshot() == old(Snapshot()).(selectedWsServer := walletServiceWsServers[choice.value])
    {
      if !useWalletService {
        return;
      }
      if choice.None? {
        selectedWsServer := "";
        return;
      }
      selectedWsServer := walletServiceWsServers[choice.value];
    }
  }
}
