# Token launcher: wizard, launch plan and upload validation

This project is a Dafny model of the core of a browser front-end that creates a
fungible token on Solana. The front-end has three parts. Each is modelled as pure
functions over immutable data:

- **`CreateToken`** models `src/components/CreateToken.tsx`. It is a five-step
  wizard: Basic Info, Metadata & Links, Authorities & Gaza Support, Initial
  Liquidity, and Preview & Launch.
  - The component state is one `Wizard` record: the active step, the form, the
    loading flag and the error message.
  - Each handler (`handleNext`, `handleBack`, `handleImage`, `updateField`,
    `onLaunch`) is a total transition function. The handlers themselves do not
    check that the step they run at is in range.
  - `Offered` records which buttons and controls the page shows, and enables, at
    each step.
  - `Inv` holds in every state that admissible events can reach. It covers:
    - the step stays within `0..4`;
    - loading happens only on the last page, and with no error shown;
    - every page after the first has a name, a symbol and a logo;
    - the liquidity percentage stays within the slider's range;
    - the authority flags are never changed.
- **`SolanaToken`** models `src/services/solanaToken.ts`. `launchToken` becomes
  a deterministic builder, in this order:
  - two wallet checks;
  - the logo upload and the metadata upload;
  - the metadata document;
  - a transaction of four instructions: create the mint account, initialise the
    mint, create the user's associated token account, mint the supply.

  The values the libraries return are inputs, gathered in `Environment`: the
  generated mint key, the rent-exempt balance, the derived associated token
  account, the blockhash, and the storage paths.
- **`Ipfs`** models `src/services/ipfs.ts`. It covers:
  - the upload validation: the size check (at most 100 KiB, inclusive), then
    reading and decoding the image, then the dimension check (each side at most
    512, inclusive);
  - the gateway URL, `https://ipfs.infura.io/ipfs/` followed by the content path.

`Wrappers` holds `Option` and `Result`. A `Result` carries the thrown error's
message, because a message is all the application ever shows.

Some things follow from the source and are proved here:

- The authority switches (freeze, mint, update) are never rendered. The page
  titled "Authorities" shows only the donation switch. So the flags keep their
  default `true`, and every launch started from the wizard gives the user the
  freeze authority (`LaunchHasLogoAndFreezeAuthority`).
- The mint authority is always the user, whatever the mint flag says.
- The token type, the socials, the liquidity settings and the update flag never
  reach the transaction.
- The metadata URL is computed but not used by the transaction.

## Model

| member | source | states |
|---|---|---|
| Ipfs.ValidationError | src/services/ipfs.ts:29-52 | Oversized files get the size error whatever their content. The dimension error appears exactly for a small enough picture with a side over 512. No error exactly when the file is `Uploadable`: at most 102400 bytes, decodable, both sides at most 512. A small enough file that cannot be read gives "Failed to read file". One that does not decode gives "Failed to load image for size check". |
| Ipfs.UploadFile | src/services/ipfs.ts:28-57 | The upload succeeds iff the file is uploadable and the storage client returned a path. The URL then names that path. A rejected file gives its validation message, and a client failure gives the client's message. |
| Ipfs.UploadJson | src/services/ipfs.ts:62-66 | No validation: success iff the client succeeded. The URL names the returned path, and a failure passes the client's message through. |
| Ipfs.GatewayUrl | src/services/ipfs.ts:56 | The URL is the gateway prefix followed by exactly the content path. |
| Ipfs.GatewayUrlRoundTrip | src/services/ipfs.ts:56 | Stripping the prefix from a gateway URL gives back the path it was built from. |
| Ipfs.PathOfRoundTrip | src/services/ipfs.ts:65 | Every URL that carries the gateway prefix is the gateway URL of its remainder. |
| Ipfs.GatewayUrlInjective | src/services/ipfs.ts:56 | Distinct content paths get distinct URLs. |
| Ipfs.SizeLimitInclusive | src/services/ipfs.ts:30-32 | 102400 bytes passes the size check and 102401 bytes fails it, whatever the content. |
| Ipfs.DimensionLimitInclusive | src/services/ipfs.ts:40-44 | A 512×512 picture is accepted. 513 on either side gives the dimension error. |
| Ipfs.SizeCheckedBeforeDimensions | src/services/ipfs.ts:29-41 | An oversized file whose picture is also too wide reports the size error, whatever the storage client would have done. |
| SolanaToken.Pow10 | src/services/solanaToken.ts:115 | `10^n` is at least 1, and a multiple of 10 for n > 0. |
| SolanaToken.MintAmount | src/services/solanaToken.ts:111-116 | The raw amount is divisible by `10^decimals`, and dividing it back gives the whole-token supply. |
| SolanaToken.BuildMetadata | src/services/solanaToken.ts:49-59 | The document repeats name, symbol, description and website. It has one creator, the user's base-58 address with share 100, and one file whose URI is the same URL as `image` and whose type is always "image/png". |
| SolanaToken.BuildInstructions | src/services/solanaToken.ts:75-117 | Exactly four instructions, in order: create account, initialise mint, create associated account, mint-to. The mint key is the new account and the mint of each later instruction. The user funds the account with the rent and holds the mint authority. The freeze authority is the user iff the freeze flag is set, else none. The initialise-mint instruction carries the given decimals. The minted amount is exactly `totalSupply * 10^decimals`. |
| SolanaToken.LaunchToken | src/services/solanaToken.ts:37-129 | No public key gives "Wallet not connected". A key without signing gives "Wallet does not support signing transactions". Success iff the wallet is ready, the logo is uploadable and both uploads succeed. A rejected logo gives its validation message, and a failed logo or metadata upload gives the storage client's own message. On success: the returned mint is the generated key, the fee payer is the user, the mint key has partially signed, and the recent blockhash and last valid block height are the fetched ones. The document is the metadata built for the user and the logo URL. The instructions are the four built for the user, the mint key, the associated account and the rent. The image and metadata URLs are the uploads' gateway URLs. |
| SolanaToken.WalletChecksPrecedeUploads | src/services/solanaToken.ts:39-46 | With a wallet that is not connected or cannot sign, the launch fails identically whatever the uploads and every other foreign call return. |
| SolanaToken.RejectedLogoAbortsLaunch | src/services/solanaToken.ts:46 | With a ready wallet, an unacceptable logo fails the launch with the upload validation's message. |
| SolanaToken.LaunchMetadataNamesUploadedLogo | src/services/solanaToken.ts:46-59 | In a successful launch, the document's `image` and its one file both name the path the storage client returned for the logo. Its only creator is the connected wallet with share 100. |
| SolanaToken.TransactionIgnoresOtherParams | src/services/solanaToken.ts:75-119 | Two parameter sets that agree on decimals, supply, freeze flag and logo build the same transaction. The liquidity settings, the mint and update flags, the socials and the metadata text do not affect it. |
| SolanaToken.LaunchedTransactionShape | src/services/solanaToken.ts:77-117 | In a successful launch: four instructions all naming the returned mint; the mint authority is the user; the freeze authority is the user iff freeze is set; the amount is `totalSupply * 10^decimals`. |
| CreateToken.HandleNext | src/components/CreateToken.tsx:152-165 | At step 0 with an empty name or symbol: "Name and symbol are required.", step unchanged. With both present but no logo: "Logo image is required.", step unchanged. Otherwise the step advances by one and the error is cleared. Whenever the step advances, no error remains. The step advances iff it is not 0 or the first page is complete. The form is never touched. |
| CreateToken.HandleBack | src/components/CreateToken.tsx:166 | The step goes back by exactly one. Form, loading flag and error are unchanged. |
| CreateToken.HandleImage | src/components/CreateToken.tsx:134-150 | The stored logo changes only for a square picture, which is stored together with its preview URL, clearing the error. "Logo must be square" appears exactly for a decoded non-square picture, and then the form is unchanged. A cancelled chooser or a file that does not decode only clears the error. |
| CreateToken.ApplyEdit | src/components/CreateToken.tsx:128-131 | Each control sets its own field to the entered value, and every other field stays as it was. No control changes the authority flags. Only the delete button changes the logo, clearing the file and the preview. Enabling the donation resets its amount to 0.5 SOL (lines 505-508). Disabling keeps the amount. |
| CreateToken.SolAmount | src/components/CreateToken.tsx:196-198 | The SOL for liquidity is the liquidity amount, plus the donation exactly when the donation is enabled. |
| CreateToken.ParamsOf | src/components/CreateToken.tsx:176-203 | The launch parameters copy the form's fields, socials and authority flags. The logo is the stored file, and the SOL amount includes the donation. |
| CreateToken.StartLaunch | src/components/CreateToken.tsx:168-174 | Without a public key or signing support: "Please connect your Phantom wallet.", and no loading starts. Otherwise loading starts with no error. Step and form unchanged. |
| CreateToken.SettleLaunch | src/components/CreateToken.tsx:204-233 | Loading always stops. Success resets the step to 0 and the form to the initial defaults. Failure keeps step and form and shows the message, or "Launch failed" when the message is empty. |
| CreateToken.LaunchOutcome | src/components/CreateToken.tsx:175-204 | The component receives the generated mint key iff the launch service assembled the transaction and its delivery threw nothing. Otherwise it receives the launch service's message, or else the delivery's message. |
| CreateToken.LiquidityTokens | src/components/CreateToken.tsx:236-238 | The allocation is the floor of `totalSupply * percent / 100`: `100 * tokens <= totalSupply * percent < 100 * tokens + 100`. |
| CreateToken.LiquidityTokensBounded | src/components/CreateToken.tsx:567-572 | For a percentage in the slider's range 0..100, the allocation lies between 0 and the total supply, and equals it at 100. |
| CreateToken.Offered | src/components/CreateToken.tsx:682-697 | Back is offered only off the first page and while not loading. When not loading, exactly one of Next and Launch is offered: Next before the last page, Launch on it. Launch is disabled while loading. An offered Next or Back keeps the step within `0..4`. The logo chooser is offered only on the first page, and no form control on the preview page. A launch settles only while loading. |
| CreateToken.EditAllowed | src/components/CreateToken.tsx:288-605 | The name takes at most 50 characters and the symbol at most 5 (lines 295, 307). The logo's delete button exists only with a preview (lines 397-417). The donation menu exists only while donating and offers 0.1 to 5.0 SOL (lines 520-551). The slider ranges over 0..100 (lines 570-571). Every other control accepts any value. |
| CreateToken.EditStep | src/components/CreateToken.tsx:288-605 | Every control sits on a page before Preview & Launch. Name, symbol and the logo's delete button are on the first page. |
| CreateToken.StepKeepsInv | src/components/CreateToken.tsx:682-697 | Every event the page offers preserves `Inv`. |
| CreateToken.RunKeepsInv | src/components/CreateToken.tsx:682-697 | Every sequence of offered events preserves `Inv`. |
| CreateToken.StepInRange | src/components/CreateToken.tsx:682-697 | From the initial state, the active step stays in `0..4` under any admissible run. Back is not offered at step 0 or while loading. Next is offered below step 4, and Launch replaces it at step 4. |
| CreateToken.InitialSatisfiesInv | src/components/CreateToken.tsx:102-124 | The initial state satisfies `Inv`, and the form written after a launch equals the initial form. |
| CreateToken.SuccessfulLaunchResets | src/components/CreateToken.tsx:205-228 | In any reachable loading state, a successful launch returns the component to exactly its initial state: step 0, default form, no error, not loading. |
| CreateToken.LaunchHasLogoAndFreezeAuthority | src/components/CreateToken.tsx:176-192 | When Launch can be pressed, name, symbol and logo are present, so the logo's non-null assertion holds. A successful launch makes the connected wallet the freeze authority. |
| CreateToken.GuardedLaunchPassesWalletChecks | src/components/CreateToken.tsx:170-176 | After the component's wallet guard passes, only four things decide the outcome: the logo, the two uploads and the delivery. |

## Left out

- Rendering, styling, the stepper, the preview page, `alert` and the object-URL revocation are presentation only.
- Signing, sending and confirming the transaction are wallet and RPC calls. Their failure is the `delivery` input of `CreateToken.LaunchOutcome`.
- Keypair generation, the rent lookup, the associated-account derivation and the blockhash fetch are library calls. Their results are the fields of `SolanaToken.Environment`, and their failures are not modelled.
- The storage client's `add` and `JSON.stringify` are library calls. The client's outcome is an input, and the serialised text is not modelled.
- The FileReader and Image decoding are browser calls. A file's decodability and pixel size are part of the file, as `Ipfs.Content`.
- The storage client's construction and the missing-credentials error (`src/services/ipfs.ts:5-23`) are module-load configuration.
- `CreateToken.HandleImage`: the decode callback is asynchronous. The model applies it at the moment of choosing, so a logo that loads after the user moved on is treated as loaded earlier.
- `CreateToken.StartLaunch`: `onLaunch` is split into `StartLaunch` and `SettleLaunch` at the `await`. Between the two, the component offers no control that changes state.
- `CreateToken.ParamsOf`: decimals and supply are non-negative integers. The source's number inputs accept any JavaScript number.
- `SolanaToken.MintAmount`: `totalSupply * 10^decimals` is an exact integer. JavaScript's double-precision rounding above 2^53 is not modelled.
- SolanaToken.BuildInstructions: the token program reads the mint-to amount as an unsigned 64-bit integer and the decimals as an unsigned 8-bit integer. The model keeps both unbounded. For example, the default supply of 10^10 with 10 decimals gives 10^20, above 2^64 - 1. What the libraries or the program do with such values is not modelled.
- CreateToken.LiquidityTokens: the allocation is the exact floor of `totalSupply * percent / 100`. The source computes `Math.floor` over doubles, which differs once the product exceeds 2^53.
- CreateToken.EditAllowed: the length limits count Unicode scalar values. The HTML `maxLength` the fields use counts UTF-16 code units, so a name with characters outside the Basic Multilingual Plane may hold fewer than 50 of them in the browser.
- SolanaToken.Wallet: `canSign` merges two tests of the wallet's `signTransaction` member. The component checks that it is truthy (src/components/CreateToken.tsx:170), and the service checks that it is a function (src/services/solanaToken.ts:41). A truthy non-function is not modelled; `CreateToken.GuardedLaunchPassesWalletChecks` relies on the merge.
- Switching to another tab unmounts the wizard (src/components/Tabs.tsx:62), even in the middle of a launch. The model has one wizard that lives forever, so the lost state and the orphaned launch are not modelled.
- `CreateToken.SolAmount`: SOL amounts, slippage and the donation are exact `real` values. Floating-point rounding of the sum is not modelled.
- The numeric formatting of the donation menu entries (`toFixed`) is not modelled. The menu itself is modelled by `IsDonationOption`.
- The Navbar, Tabs, Dashboard, MyTokens, Settings, App and index components, the styles, the wallet-balance polling in `WalletContext.tsx`, `src/services/solana.ts` and `craco.config.js` are outside this model.
