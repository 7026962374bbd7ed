/** The launch routine of the token service (src/services/solanaToken.ts).

    With the wallet, RPC and storage libraries abstracted away, `launchToken`
    is a deterministic builder: two wallet checks, two uploads, a metadata
    document, and a transaction of four instructions. Everything the libraries
    return (the generated mint key, the rent-exempt balance, the derived
    associated token account, the recent blockhash, the storage paths) is an
    input collected in `Environment`. Signing, sending and confirming come
    after assembly and are not part of this module.
 */
module SolanaToken {
  import opened Wrappers
  import Ipfs

  /** An account address, identified by its base-58 text. */
  datatype PublicKey = PublicKey(base58: string)

  /** The SPL token program that owns every mint (a library constant). */
  const TokenProgramId: PublicKey := PublicKey("TokenkegQfeZyiNwAJbNbGKPFXCWuBvf9Ss623VQ5DA")

  /** Size in bytes of a mint account (the library's `MINT_SIZE`). */
  const MintSize: nat := 82

  const NotConnectedError: string := "Wallet not connected"
  const CannotSignError: string := "Wallet does not support signing transactions"

  /** The browser wallet as `launchToken` inspects it: its public key, if
      connected, and whether it offers a `signTransaction` function. */
  datatype Wallet = Wallet(publicKey: Option<PublicKey>, canSign: bool)

  datatype Authorities = Authorities(freeze: bool, mint: bool, update: bool)
  datatype Socials = Socials(telegram: string, twitter: string, discord: string)

  /** Liquidity settings; amounts of SOL are kept exact. */
  datatype Liquidity = Liquidity(percent: int, solAmount: real, slippage: real)

  datatype LaunchParams = LaunchParams(
    name: string,
    symbol: string,
    decimals: nat,
    totalSupply: nat,
    imageFile: Ipfs.ImageFile,
    description: string,
    website: string,
    socials: Socials,
    authorities: Authorities,
    liquidity: Liquidity)

  datatype Creator = Creator(address: string, share: nat)
  datatype MetadataFile = MetadataFile(uri: string, mimeType: string)

  /** The JSON metadata document uploaded before the transaction is built.
      The document nests `creators` and `files` under a `properties` object;
      the record flattens that one level, which changes nothing here since
      the serialised text is not modelled. */
  datatype Metadata = Metadata(
    name: string,
    symbol: string,
    description: string,
    image: string,
    externalUrl: string,
    creators: seq<Creator>,
    files: seq<MetadataFile>)

  /** The instructions the transaction can hold. */
  datatype Instruction =
    | CreateAccount(from: PublicKey, newAccount: PublicKey, space: nat, lamports: nat, programId: PublicKey)
    | InitializeMint(mint: PublicKey, decimals: nat, mintAuthority: PublicKey,
                     freezeAuthority: Option<PublicKey>, programId: PublicKey)
    | CreateAssociatedTokenAccount(payer: PublicKey, account: PublicKey, owner: PublicKey, mint: PublicKey)
    | MintTo(mint: PublicKey, destination: PublicKey, authority: PublicKey, amount: nat)

  /** A transaction ready for the wallet to sign; `partialSigners` are the
      keys that have already signed it. */
  datatype Transaction = Transaction(
    instructions: seq<Instruction>,
    feePayer: PublicKey,
    recentBlockhash: string,
    lastValidBlockHeight: nat,
    partialSigners: seq<PublicKey>)

  /** What the foreign calls made during one launch return. */
  datatype Environment = Environment(
    imageAdded: Result<string>,      // storage client's `add` for the logo
    metadataAdded: Result<string>,   // storage client's `add` for the JSON document
    mintKey: PublicKey,              // public key of the generated mint keypair
    rent: nat,                       // rent-exempt balance of a mint account
    ata: PublicKey,                  // the user's associated token account for the mint
    blockhash: string,
    lastValidBlockHeight: nat)

  /** Everything a successful assembly produces. */
  datatype Launch = Launch(metadata: Metadata, metadataUrl: string, transaction: Transaction, mint: PublicKey)

  /** `Math.pow(10, n)` for a whole exponent. */
  function Pow10(n: nat): (r: nat)
    ensures r >= 1
    ensures n > 0 ==> r % 10 == 0
  {
    if n == 0 then 1 else 10 * Pow10(n - 1)
  }

  /** Raw base units minted for a supply given in whole tokens. */
  function MintAmount(totalSupply: nat, decimals: nat): (amount: nat)
    ensures amount % Pow10(decimals) == 0
    ensures amount / Pow10(decimals) == totalSupply
  {
    MintAmountDividesBack(totalSupply, Pow10(decimals));
    totalSupply * Pow10(decimals)
  }

  lemma MintAmountDividesBack(s: nat, unit: nat)
    requires unit >= 1
    ensures (s * unit) % unit == 0 && (s * unit) / unit == s
  {
    var x := s * unit;
    var q, m := x / unit, x % unit;
    assert x == unit * q + m && 0 <= m < unit;
    assert unit * (s - q) == m;
    if s - q >= 1 {
      MulAtLeast(unit, s - q);
    } else if s - q <= -1 {
      MulAtLeast(unit, q - s);
    }
  }

  lemma MulAtLeast(a: int, k: int)
    requires a >= 1 && k >= 1
    ensures a * k >= a
  {
  }

  /** The metadata document for a token whose logo is served at `imageUrl`. */
  function BuildMetadata(p: LaunchParams, user: PublicKey, imageUrl: string): (m: Metadata)
    ensures m.name == p.name && m.symbol == p.symbol && m.description == p.description
    ensures m.externalUrl == p.website
    ensures |m.creators| == 1 && m.creators[0].address == user.base58 && m.creators[0].share == 100
    ensures |m.files| == 1 && m.files[0].uri == m.image == imageUrl
    ensures m.files[0].mimeType == "image/png"
  {
    Metadata(
      p.name, p.symbol, p.description, imageUrl, p.website,
      [Creator(user.base58, 100)],
      [MetadataFile(imageUrl, "image/png")])
  }

  /** The instruction list, in order: create the mint account, initialise
      it, create the user's associated token account, mint the supply into it. */
  function BuildInstructions(p: LaunchParams, user: PublicKey, mint: PublicKey, ata: PublicKey, rent: nat)
    : (ixs: seq<Instruction>)
    ensures |ixs| == 4
    ensures ixs[0].CreateAccount? && ixs[1].InitializeMint?
    ensures ixs[2].CreateAssociatedTokenAccount? && ixs[3].MintTo?
    ensures ixs[0].newAccount == mint && ixs[1].mint == mint && ixs[2].mint == mint && ixs[3].mint == mint
    ensures ixs[0].from == user && ixs[0].lamports == rent && ixs[0].space == MintSize
    ensures ixs[0].programId == TokenProgramId && ixs[1].programId == TokenProgramId
    ensures ixs[1].mintAuthority == user
    ensures ixs[1].freezeAuthority == (if p.authorities.freeze then Some(user) else None)
    ensures ixs[1].decimals == p.decimals
    ensures ixs[2].payer == user && ixs[2].owner == user && ixs[2].account == ata
    ensures ixs[3].destination == ata && ixs[3].authority == user
    ensures ixs[3].amount == p.totalSupply * Pow10(p.decimals)
  {
    [ CreateAccount(user, mint, MintSize, rent, TokenProgramId),
      InitializeMint(mint, p.decimals, user, if p.authorities.freeze then Some(user) else None, TokenProgramId),
      CreateAssociatedTokenAccount(user, ata, user, mint),
      MintTo(mint, ata, user, MintAmount(p.totalSupply, p.decimals)) ]
  }

  /** `launchToken` up to the point where the wallet is asked to sign. */
  function LaunchToken(p: LaunchParams, wallet: Wallet, env: Environment): (r: Result<Launch>)
    ensures wallet.publicKey.None? ==> r == Err(NotConnectedError)
    ensures wallet.publicKey.Some? && !wallet.canSign ==> r == Err(CannotSignError)
    ensures r.Ok? <==>
              wallet.publicKey.Some? && wallet.canSign
              && Ipfs.Uploadable(p.imageFile) && env.imageAdded.Ok? && env.metadataAdded.Ok?
    ensures r.Ok? ==> r.value.mint == env.mintKey
    ensures r.Ok? ==> r.value.transaction.feePayer == wallet.publicKey.value
    ensures r.Ok? ==> r.value.transaction.partialSigners == [env.mintKey]
    ensures r.Ok? ==> r.value.metadata.image == Ipfs.GatewayUrl(env.imageAdded.value)
    ensures r.Ok? ==> r.value.metadataUrl == Ipfs.GatewayUrl(env.metadataAdded.value)
    ensures r.Ok? ==> r.value.transaction.recentBlockhash == env.blockhash
                      && r.value.transaction.lastValidBlockHeight == env.lastValidBlockHeight
    ensures wallet.publicKey.Some? && wallet.canSign && !Ipfs.Uploadable(p.imageFile) ==>
              r == Err(Ipfs.ValidationError(p.imageFile).value)
    ensures r.Ok? ==> r.value.metadata == BuildMetadata(p, wallet.publicKey.value, r.value.metadata.image)
    ensures r.Ok? ==> r.value.transaction.instructions ==
                        BuildInstructions(p, wallet.publicKey.value, env.mintKey, env.ata, env.rent)
    ensures wallet.publicKey.Some? && wallet.canSign && Ipfs.Uploadable(p.imageFile) && env.imageAdded.Err? ==>
              r == Err(env.imageAdded.message)
    ensures wallet.publicKey.Some? && wallet.canSign && Ipfs.Uploadable(p.imageFile) && env.imageAdded.Ok?
            && env.metadataAdded.Err? ==>
              r == Err(env.metadataAdded.message)
  {
    match wallet.publicKey
    case None => Err(NotConnectedError)
    case Some(user) =>
      if !wallet.canSign then Err(CannotSignError)
      else match Ipfs.UploadFile(p.imageFile, env.imageAdded)
        case Err(message) => Err(message)
        case Ok(imageUrl) =>
          var metadata := BuildMetadata(p, user, imageUrl);
          match Ipfs.UploadJson(env.metadataAdded)
          case Err(message) => Err(message)
          case Ok(metadataUrl) =>
            var tx := Transaction(
              BuildInstructions(p, user, env.mintKey, env.ata, env.rent),
              user, env.blockhash, env.lastValidBlockHeight, [env.mintKey]);
            Ok(Launch(metadata, metadataUrl, tx, env.mintKey))
  }

  /** A failed wallet check is reported before anything is uploaded: the
      outcome of the uploads (and of every other foreign call) is irrelevant. */
  lemma WalletChecksPrecedeUploads(p: LaunchParams, wallet: Wallet, env1: Environment, env2: Environment)
    requires !(wallet.publicKey.Some? && wallet.canSign)
    ensures LaunchToken(p, wallet, env1) == LaunchToken(p, wallet, env2)
    ensures LaunchToken(p, wallet, env1).Err?
  {
  }

  /** A rejected logo surfaces the validation message of the upload service. */
  lemma RejectedLogoAbortsLaunch(p: LaunchParams, wallet: Wallet, env: Environment)
    requires wallet.publicKey.Some? && wallet.canSign
    requires !Ipfs.Uploadable(p.imageFile)
    ensures LaunchToken(p, wallet, env) == Err(Ipfs.ValidationError(p.imageFile).value)
  {
  }

  /** The metadata document of a launch points at the uploaded logo: both
      its `image` and its one file name the path the storage client returned,
      and its one creator is the connected wallet. */
  lemma LaunchMetadataNamesUploadedLogo(p: LaunchParams, wallet: Wallet, env: Environment)
    requires LaunchToken(p, wallet, env).Ok?
    ensures var m := LaunchToken(p, wallet, env).value.metadata;
            && Ipfs.PathOf(m.image) == Some(env.imageAdded.value)
            && Ipfs.PathOf(m.files[0].uri) == Some(env.imageAdded.value)
            && m.creators == [Creator(wallet.publicKey.value.base58, 100)]
  {
    var m := LaunchToken(p, wallet, env).value.metadata;
    Ipfs.GatewayUrlRoundTrip(env.imageAdded.value);
    assert m.image == Ipfs.GatewayUrl(env.imageAdded.value);
  }

  /** The two launches build the same instructions. */
  predicate SameTransactionInputs(p: LaunchParams, q: LaunchParams) {
    p.decimals == q.decimals && p.totalSupply == q.totalSupply && p.authorities.freeze == q.authorities.freeze
  }

  /** Only the decimals, the supply and the freeze flag shape the transaction:
      the liquidity settings, the mint and update flags, the socials and the
      metadata text never reach it. */
  lemma TransactionIgnoresOtherParams(p: LaunchParams, q: LaunchParams, wallet: Wallet, env: Environment)
    requires SameTransactionInputs(p, q)
    requires p.imageFile == q.imageFile
    ensures LaunchToken(p, wallet, env).Ok? == LaunchToken(q, wallet, env).Ok?
    ensures LaunchToken(p, wallet, env).Ok? ==>
              LaunchToken(p, wallet, env).value.transaction == LaunchToken(q, wallet, env).value.transaction
  {
  }

  /** The mint key is fresh to the transaction's roles: every instruction
      names it as the mint, and the user holds both authorities that exist. */
  lemma LaunchedTransactionShape(p: LaunchParams, wallet: Wallet, env: Environment)
    requires LaunchToken(p, wallet, env).Ok?
    ensures var launch := LaunchToken(p, wallet, env).value;
            var ixs := launch.transaction.instructions;
            var user := wallet.publicKey.value;
            && |ixs| == 4
            && ixs[0].CreateAccount? && ixs[0].newAccount == launch.mint
            && ixs[1].InitializeMint? && ixs[1].mint == launch.mint
            && ixs[2].CreateAssociatedTokenAccount? && ixs[2].mint == launch.mint
            && ixs[3].MintTo? && ixs[3].mint == launch.mint
            && ixs[1].mintAuthority == user
            && (ixs[1].freezeAuthority == Some(user) <==> p.authorities.freeze)
            && ixs[3].amount == p.totalSupply * Pow10(p.decimals)
  {
  }
}
