# Nette `UrlScript` in Dafny

This project models `Nette\Http\UrlScript`, the extended HTTP URL of the
Nette framework. It adds a mutable script path to a URL's request path.
Three strings are derived from the two:

- the **script path**: the explicit script path, or the whole request path
  when the explicit one is falsy in PHP's sense (`""` or `"0"`);
- the **base path**: the prefix of the request path up to and including the
  last `/` of the script path. The `/` is searched for in the script path,
  but the slice is cut from the request path;
- the **path info**: the rest of the request path after the script path's
  length, or `""` when the script path is as long as the path or longer.

Two modules:

- `PhpString` (`php_string.dfy`) states the PHP built-ins the class uses:
  the truthiness behind `?:`, `strrpos` with a one-character needle, and
  `substr` with non-negative arguments. `strrpos` is a recursive function
  whose contract characterises the last occurrence, with a uniqueness lemma.
- `NetteHttp` (`url_script.dfy`) holds the class `UrlScript`. Its fields are
  `path` and `scriptPath`. The constructor and `SetScriptPath` write
  `scriptPath`. `SetScriptPath` may modify only that field. `GetScriptPath`,
  `GetBasePath` and `GetPathInfo` are functions that read the object, so two
  calls without a write in between give the same result. The lemmas next to
  the class relate the three derived strings to each other and to the
  fields, and they work through the examples of the class documentation.

PHP's `?:` treats `"0"` as false as well as `""`, so either one falls back
to the request path (`GetScriptPath`, `ZeroScriptPathExample`).

The base path is `""` when the script path holds no `/`, and also when the
request path is empty, because `substr("", 0, n)` is `""`. `BasePathEmpty`
states the exact condition.

PHP strings are byte strings: `strlen`, `strrpos` and `substr` count bytes.
In this model each Dafny `char` of a string stands for one byte of the PHP
string, so a multi-byte UTF-8 character of the PHP string is a run of that
many `char`s here. All positions and lengths in the contracts are byte
positions and byte lengths.

## Model

| member | source | states |
|---|---|---|
| PhpString.Truthy | src/Http/UrlScript.php:58 | a string is false exactly when it is empty or is the single character `0` |
| PhpString.StrRPos | src/Http/UrlScript.php:67 | None exactly when the character does not occur; otherwise an index that holds it, with no occurrence after it |
| PhpString.StrRPosUnique | src/Http/UrlScript.php:67 | any index that holds the character, with none after it, is the one `strrpos` reports |
| PhpString.SubstrPrefix | src/Http/UrlScript.php:68 | `substr(s, 0, n)` is a prefix of `s` of length min(n, length of `s`) |
| PhpString.SubstrFrom | src/Http/UrlScript.php:77 | `substr(s, k)` is what follows the first k characters of `s`, and `""` when k reaches or passes the end |
| NetteHttp.UrlScript.constructor | src/Http/UrlScript.php:35-39 | stores the given path and script path; with the default empty script path the script path is the path and the path info is empty |
| NetteHttp.UrlScript.SetScriptPath | src/Http/UrlScript.php:46-50 | stores the value verbatim, changes no other field, returns the same object; afterwards the script path is the value when it is truthy and the path otherwise |
| NetteHttp.UrlScript.GetScriptPath | src/Http/UrlScript.php:56-59 | the explicit script path when it is neither `""` nor `"0"`, the path otherwise |
| NetteHttp.UrlScript.GetBasePath | src/Http/UrlScript.php:65-69 | always a prefix of the path; `""` when the script path holds no `/` |
| NetteHttp.UrlScript.GetPathInfo | src/Http/UrlScript.php:75-78 | the path is its prefix as long as the script path, followed by the path info; `""`, and no error, when the script path is at least as long as the path |
| NetteHttp.BasePathLength | src/Http/UrlScript.php:67-68 | for the last `/` of the script path at index pos, the base path is the first min(pos + 1, length of the path) characters of the path |
| NetteHttp.BasePathEmpty | src/Http/UrlScript.php:67-68 | the base path is `""` if and only if the script path holds no `/` or the path is empty |
| NetteHttp.BasePathCoversEverySlash | src/Http/UrlScript.php:67-68 | every `/` of the script path at an index inside the path lies inside the base path, so the base path runs to the last `/` and not to an earlier one |
| NetteHttp.BasePathIsDirectory | src/Http/UrlScript.php:67-68 | when the script path is a prefix of the path and holds a `/`, the base path is a prefix of the script path ending in `/`, and no `/` follows it in the script path |
| NetteHttp.ScriptPathAndPathInfo | src/Http/UrlScript.php:56-78 | script path + path info == path if and only if the script path is a prefix of the path |
| NetteHttp.SplitAtScriptPath | src/Http/UrlScript.php:17-24 | when the explicit script path is a prefix of the path, script path + path info == path and the path info is the path's suffix after the script path |
| NetteHttp.UnsetScriptPath | src/Http/UrlScript.php:58 | with a falsy script path, the script path is the path, the path info is empty, and the base path is the path up to and including its last `/` |
| NetteHttp.AdminScriptExample | src/Http/UrlScript.php:17-24 | path `/admin/script.php/pathinfo/` with script path `/admin/script.php` gives path info `/pathinfo/` and base path `/admin/` |
| NetteHttp.DirectoryIndexExample | src/Http/UrlScript.php:23 | a directory index `/admin/` as script path of `/admin/` gives base path `/admin/` and an empty path info |
| NetteHttp.UnsetExample | src/Http/UrlScript.php:58-68 | path `/foo` with no script path: script path `/foo`, base path `/`, empty path info |
| NetteHttp.ZeroScriptPathExample | src/Http/UrlScript.php:58 | script path `"0"` falls back to the path like `""` does |
| NetteHttp.LongScriptPathExample | src/Http/UrlScript.php:77 | a script path longer than the path gives an empty path info |
| NetteHttp.BasePathSlicesPath | src/Http/UrlScript.php:67-68 | the base path is cut from the path at the script path's last `/`: path `/abcdef` with script path `/x/y` gives `/ab` |
| NetteHttp.MultiByteScriptPathExample | src/Http/UrlScript.php:67-77 | with the script path given as the UTF-8 bytes of `/é/y`, the base path of `/abcdef` is `/abc` and the path info is `ef`, as PHP computes them in bytes |

## Left out

- The parent class `Url` and its parsing of a URL string are not part of this model. The constructor takes the request path as a string, and `path` is the only `Url` field kept.
- The magic `@property` accessors (`$scriptPath`, `$pathInfo`) rest on PHP's `__get`/`__set` machinery and are not modelled. The getters they reach are.
- Under PHP releases before 8, `substr` returns `FALSE` where PHP 8 returns `""`. The model gives `""` throughout, as the `(string)` cast in `getPathInfo` does.
- PhpString.SubstrFrom and PhpString.SubstrPrefix cover only non-negative offsets and lengths, the only ones `UrlScript` passes. Negative arguments to `substr` are not modelled.
- PhpString.StrRPos searches for one character, the only needle `UrlScript` uses. Multi-character needles and offsets are not modelled.
- A Dafny `string` given to the model is read byte for byte: the model does not encode Unicode text as UTF-8. A string holding a character outside one byte (such as `é`) therefore has fewer `char`s here than bytes in PHP, and positions found in the script path would land elsewhere in `path` than PHP puts them. Callers of the model pass each PHP byte as one `char`.
- The `(string)` coercion in `setScriptPath` is the identity on a typed string and is not modelled separately.
